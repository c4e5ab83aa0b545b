/**
 * Resolving the images of a markdown text: the scanner for `![alt](src)` and the rewriter that
 * replaces storage keys by download URLs.
 */
module MarkdownImages {
  import opened Types

  // ---- Storage keys ---------------------------------------------------------------------

  const STORAGE_KEY_PREFIXES: seq<string> := ["attachments/", "descriptions/", "comments/", "boards/", "users/"]

  predicate IsStorageKey(value: string) {
    exists i | 0 <= i < |STORAGE_KEY_PREFIXES| :: STORAGE_KEY_PREFIXES[i] <= value
  }

  // ---- The scanner ----------------------------------------------------------------------

  /** The characters matched by `\s` in a JavaScript regular expression. */
  predicate IsSpace(c: char) {
    || c == ' ' || '\U{0009}' <= c <= '\U{000D}' || c == '\U{00A0}' || c == '\U{1680}'
    || '\U{2000}' <= c <= '\U{200A}' || c == '\U{2028}' || c == '\U{2029}' || c == '\U{202F}'
    || c == '\U{205F}' || c == '\U{3000}' || c == '\U{FEFF}'
  }

  predicate EndsAlt(c: char) {
    c == ']'
  }

  predicate EndsSrc(c: char) {
    c == ')' || IsSpace(c)
  }

  predicate CleanAlt(alt: string) {
    forall i | 0 <= i < |alt| :: !EndsAlt(alt[i])
  }

  predicate CleanSrc(src: string) {
    src != "" && forall i | 0 <= i < |src| :: !EndsSrc(src[i])
  }

  function FirstAt(t: string, from: nat, stops: char -> bool): (i: nat)
    requires from <= |t|
    ensures from <= i <= |t|
    ensures forall k | from <= k < i :: !stops(t[k])
    ensures i < |t| ==> stops(t[i])
    decreases |t| - from
  {
    if from == |t| || stops(t[from]) then from else FirstAt(t, from + 1, stops)
  }

  datatype Hit = Hit(alt: string, src: string)

  function ImageText(hit: Hit): string {
    "![" + hit.alt + "](" + hit.src + ")"
  }

  /** The match of the image expression that starts at the beginning of `t`, if there is one. */
  function MatchAt(t: string): (hit: Option<Hit>)
    ensures hit.Some? ==> |ImageText(hit.value)| <= |t| && CleanAlt(hit.value.alt) && CleanSrc(hit.value.src)
  {
    if |t| < 2 || t[0] != '!' || t[1] != '[' then None
    else
      var p := FirstAt(t, 2, EndsAlt);
      if |t| <= p + 1 || t[p + 1] != '(' then None
      else
        var q := FirstAt(t, p + 2, EndsSrc);
        if q == p + 2 || q == |t| || t[q] != ')' then None else Some(Hit(t[2..p], t[p + 2..q]))
  }

  lemma MatchIsPrefix(t: string)
    requires MatchAt(t).Some?
    ensures ImageText(MatchAt(t).value) <= t
  {
    var hit := MatchAt(t).value;
    var p := FirstAt(t, 2, EndsAlt);
    var q := FirstAt(t, p + 2, EndsSrc);
    assert t[..2] == "![" && t[p..p + 2] == "](" && t[q..q + 1] == ")";
    hide FirstAt;
    hide MatchAt;
    FivePieces(t, p, q);
  }

  lemma FivePieces(t: string, p: nat, q: nat)
    requires 2 <= p && p + 2 <= q < |t|
    ensures t[..q + 1] == t[..2] + t[2..p] + t[p..p + 2] + t[p + 2..q] + t[q..q + 1]
  {
  }

  lemma PrefixMatches(t: string, hit: Hit)
    requires CleanAlt(hit.alt) && CleanSrc(hit.src) && ImageText(hit) <= t
    ensures MatchAt(t) == Some(hit)
  {
    var image, p := ImageText(hit), 2 + |hit.alt|;
    var q := p + 2 + |hit.src|;
    ImageLayout(hit);
    assert t[..|image|] == image;
    assert t[0] == '!' && t[1] == '[' && t[p] == ']' && t[p + 1] == '(' && t[q] == ')';
    assert t[2..p] == hit.alt by {
      assert t[2..p] == t[..|image|][2..p];
    }
    assert t[p + 2..q] == hit.src by {
      assert t[p + 2..q] == t[..|image|][p + 2..q];
    }
    assert forall k | 2 <= k < p :: t[k] == t[2..p][k - 2];
    assert FirstAt(t, 2, EndsAlt) == p;
    assert forall k | p + 2 <= k < q :: t[k] == t[p + 2..q][k - (p + 2)];
    assert FirstAt(t, p + 2, EndsSrc) == q;
  }

  lemma ImageLayout(hit: Hit)
    ensures var image, p := ImageText(hit), 2 + |hit.alt|;
            var q := p + 2 + |hit.src|;
            && |image| == q + 1 && image[0] == '!' && image[1] == '['
            && image[2..p] == hit.alt && image[p] == ']' && image[p + 1] == '('
            && image[p + 2..q] == hit.src && image[q] == ')'
  {
  }

  /** The scanner finds a match exactly when the text begins with an image, and then that image. */
  lemma MatchIsRegex(t: string, hit: Hit)
    ensures MatchAt(t) == Some(hit) <==> CleanAlt(hit.alt) && CleanSrc(hit.src) && ImageText(hit) <= t
  {
    if MatchAt(t) == Some(hit) {
      MatchIsPrefix(t);
    } else if CleanAlt(hit.alt) && CleanSrc(hit.src) && ImageText(hit) <= t {
      PrefixMatches(t, hit);
    }
  }

  /** A text is a sequence of images and of the characters between them. */
  datatype Token = Plain(c: char) | Image(hit: Hit)

  /** matchAll: leftmost matches that do not overlap, with everything between them kept. */
  function Scan(t: string): (tokens: seq<Token>)
    ensures forall i | 0 <= i < |tokens| && tokens[i].Image? :: CleanSrc(tokens[i].hit.src)
  {
    if t == "" then []
    else match MatchAt(t)
      case Some(hit) => [Image(hit)] + Scan(t[|ImageText(hit)|..])
      case None => [Plain(t[0])] + Scan(t[1..])
  }

  function Text(token: Token): string {
    match token
    case Plain(c) => [c]
    case Image(hit) => ImageText(hit)
  }

  function Render(tokens: seq<Token>): string {
    if tokens == [] then "" else Text(tokens[0]) + Render(tokens[1..])
  }

  /** Scanning loses nothing: writing the tokens out again gives the text back. */
  lemma {:induction false} RenderScan(t: string)
    ensures Render(Scan(t)) == t
  {
    if t != "" {
      match MatchAt(t)
      case Some(hit) =>
        MatchIsRegex(t, hit);
        RenderScan(t[|ImageText(hit)|..]);
        assert ImageText(hit) == t[..|ImageText(hit)|];
      case None =>
        RenderScan(t[1..]);
    }
  }

  // ---- The rewriter ---------------------------------------------------------------------

  /** The sources of the matches that are storage keys, in order and with repetitions. */
  function Keys(tokens: seq<Token>): (keys: seq<string>)
  {
    if tokens == [] then []
    else if tokens[0].Image? && IsStorageKey(tokens[0].hit.src) then [tokens[0].hit.src] + Keys(tokens[1..])
    else Keys(tokens[1..])
  }

  /** The replacement of one match by what the map holds for its source. */
  function Substitute(token: Token, urlByKey: map<string, string>): Token {
    match token
    case Plain(_) => token
    case Image(hit) =>
      if hit.src in urlByKey && urlByKey[hit.src] != "" then Image(hit.(src := urlByKey[hit.src])) else token
  }

  function SubstituteAll(tokens: seq<Token>, urlByKey: map<string, string>): (r: seq<Token>)
    ensures |r| == |tokens|
    ensures forall i | 0 <= i < |r| :: r[i] == Substitute(tokens[i], urlByKey)
  {
    if tokens == [] then [] else [Substitute(tokens[0], urlByKey)] + SubstituteAll(tokens[1..], urlByKey)
  }

  /**
   * resolveMarkdownImages: collect the keys, ask for one URL per distinct key, then replace.
   * `url` is what the storage service answers during this call.
   */
  function ResolveMarkdownImages(text: Option<string>, url: string -> string): Option<string> {
    match text
    case None => None
    case Some(t) =>
      if t == "" then text
      else
        var keys := Keys(Scan(t));
        if keys == [] then text
        else
          var urlByKey := map key | key in keys :: url(key);
          Some(Render(SubstituteAll(Scan(t), urlByKey)))
  }

  /** Each match resolved on its own. */
  function ResolveToken(token: Token, url: string -> string): Token {
    match token
    case Plain(_) => token
    case Image(hit) =>
      if IsStorageKey(hit.src) && url(hit.src) != "" then Image(hit.(src := url(hit.src))) else token
  }

  function ResolveTokens(tokens: seq<Token>, url: string -> string): (r: seq<Token>)
    ensures |r| == |tokens|
    ensures forall i | 0 <= i < |r| :: r[i] == ResolveToken(tokens[i], url)
  {
    if tokens == [] then [] else [ResolveToken(tokens[0], url)] + ResolveTokens(tokens[1..], url)
  }

  lemma {:induction false} KeysAreStorageSources(tokens: seq<Token>)
    ensures forall key :: key in Keys(tokens) <==>
              IsStorageKey(key) && exists i | 0 <= i < |tokens| :: tokens[i].Image? && tokens[i].hit.src == key
  {
    if tokens != [] {
      KeysAreStorageSources(tokens[1..]);
      forall key
        ensures key in Keys(tokens) <==>
                  IsStorageKey(key) && exists i | 0 <= i < |tokens| :: tokens[i].Image? && tokens[i].hit.src == key
      {
        if i :| 0 <= i < |tokens[1..]| && tokens[1..][i].Image? && tokens[1..][i].hit.src == key {
          assert tokens[i + 1] == tokens[1..][i];
        }
        if i :| 0 <= i < |tokens| && tokens[i].Image? && tokens[i].hit.src == key {
          assert i > 0 ==> tokens[i] == tokens[1..][i - 1];
        }
      }
    }
  }

  /** The batched rewriting through the deduplicated map is the rewriting match by match. */
  lemma BatchedIsPerMatch(t: string, url: string -> string)
    ensures ResolveMarkdownImages(Some(t), url) == Some(Render(ResolveTokens(Scan(t), url)))
  {
    var tokens := Scan(t);
    var keys, resolved := Keys(tokens), ResolveTokens(tokens, url);
    KeysAreStorageSources(tokens);
    if t == "" || keys == [] {
      forall i | 0 <= i < |tokens|
        ensures resolved[i] == tokens[i]
      {
        assert tokens[i].Image? ==> tokens[i].hit.src !in keys;
      }
      assert resolved == tokens;
      RenderScan(t);
    } else {
      var urlByKey := map key | key in keys :: url(key);
      forall i | 0 <= i < |tokens|
        ensures Substitute(tokens[i], urlByKey) == resolved[i]
      {
        assert tokens[i].Image? ==> (tokens[i].hit.src in keys <==> IsStorageKey(tokens[i].hit.src));
      }
      assert SubstituteAll(tokens, urlByKey) == resolved;
    }
  }

  // ---- Scanning the result --------------------------------------------------------------

  predicate AllClean(tokens: seq<Token>) {
    forall i | 0 <= i < |tokens| && tokens[i].Image? :: CleanSrc(tokens[i].hit.src)
  }

  lemma {:induction false} FirstAgrees(t: string, t': string, h: nat, from: nat, stops: char -> bool)
    requires from <= h <= |t| && h <= |t'| && t[..h] == t'[..h]
    requires FirstAt(t, from, stops) < h
    ensures FirstAt(t', from, stops) == FirstAt(t, from, stops)
    decreases h - from
  {
    assert t[..h][from] == t'[..h][from];
    if !stops(t[from]) {
      FirstAgrees(t, t', h, from + 1, stops);
    }
  }

  /**
   * A position that starts no match still starts none when the source of the next image changes:
   * a failed match is decided before that source, for had it run into the source it would have
   * ended at the image's own closing parenthesis and succeeded.
   */
  lemma NoMatchStays(t: string, t': string, h: nat, n: nat)
    requires 5 <= h <= |t'| && h + n < |t| && n > 0 && t[..h] == t'[..h]
    requires t[h - 2] == ']' && t[h - 1] == '('
    requires forall k | h <= k < h + n :: !EndsSrc(t[k])
    requires t[h + n] == ')'
    requires MatchAt(t).None?
    ensures MatchAt(t').None?
  {
    assert forall k | 0 <= k < h :: t[k] == t[..h][k] == t'[..h][k] == t'[k];
    if t[0] == '!' && t[1] == '[' {
      var p := FirstAt(t, 2, EndsAlt);
      assert p <= h - 2;
      FirstAgrees(t, t', h, 2, EndsAlt);
      if t[p + 1] == '(' {
        var q := FirstAt(t, p + 2, EndsSrc);
        assert q <= h + n;
        assert q < h;
        FirstAgrees(t, t', h, p + 2, EndsSrc);
      }
    }
  }

  predicate HasImage(tokens: seq<Token>) {
    exists i | 0 <= i < |tokens| :: tokens[i].Image?
  }

  /** The first image of a text, with the text around its source. */
  datatype Split = Split(head: string, src: string, rest: string) {
    function Tail(): string {
      src + ")" + rest
    }
  }

  function FirstSource(tokens: seq<Token>): (split: Split)
    requires HasImage(tokens)
    ensures |split.head| >= 4 && split.head[|split.head| - 2] == ']' && split.head[|split.head| - 1] == '('
  {
    if tokens[0].Image? then
      Split("![" + tokens[0].hit.alt + "](", tokens[0].hit.src, Render(tokens[1..]))
    else
      var split := FirstSource(tokens[1..]);
      split.(head := [tokens[0].c] + split.head)
  }

  lemma {:induction false} SplitAtSource(tokens: seq<Token>)
    requires HasImage(tokens)
    ensures Render(tokens) == FirstSource(tokens).head + FirstSource(tokens).Tail()
  {
    if tokens[0].Image? {
      var hit, rest := tokens[0].hit, Render(tokens[1..]);
      assert ImageText(hit) + rest == ("![" + hit.alt + "](") + (hit.src + ")" + rest);
    } else {
      SplitAtSource(tokens[1..]);
      var split := FirstSource(tokens[1..]);
      assert [tokens[0].c] + (split.head + split.Tail()) == ([tokens[0].c] + split.head) + split.Tail();
    }
  }

  /** Before the first source the original and the rewritten text agree. */
  lemma {:induction false} SameHead(tokens: seq<Token>, url: string -> string)
    requires HasImage(tokens)
    ensures HasImage(ResolveTokens(tokens, url))
    ensures FirstSource(ResolveTokens(tokens, url)).head == FirstSource(tokens).head
  {
    var out := ResolveTokens(tokens, url);
    assert out[0] == ResolveToken(tokens[0], url);
    if !tokens[0].Image? {
      SameHead(tokens[1..], url);
      assert out[1..] == ResolveTokens(tokens[1..], url);
    }
  }

  lemma {:induction false} NoImageUnchanged(tokens: seq<Token>, url: string -> string)
    requires !HasImage(tokens)
    ensures ResolveTokens(tokens, url) == tokens
  {
    assert forall i | 0 <= i < |tokens| :: tokens[i].Plain?;
  }

  lemma {:induction false} FirstSourceClean(tokens: seq<Token>)
    requires HasImage(tokens) && AllClean(tokens)
    ensures CleanSrc(FirstSource(tokens).src)
  {
    if !tokens[0].Image? {
      assert AllClean(tokens[1..]);
      FirstSourceClean(tokens[1..]);
    }
  }

  lemma SourceMayChange(split: Split, t: string, tail: string, t': string)
    requires |split.head| >= 5 && split.head[|split.head| - 2] == ']' && split.head[|split.head| - 1] == '('
    requires CleanSrc(split.src)
    requires t == split.head + split.Tail() && t' == split.head + tail
    requires MatchAt(t).None?
    ensures MatchAt(t').None?
  {
    var h, n := |split.head|, |split.src|;
    assert t[..h] == split.head == t'[..h];
    assert t[h - 2] == t[..h][h - 2] && t[h - 1] == t[..h][h - 1];
    assert t[h..h + n] == split.src;
    assert forall k | h <= k < h + n :: t[k] == t[h..h + n][k - h];
    assert t[h + n] == ')';
    NoMatchStays(t, t', h, n);
  }

  lemma HeadIsLong(tokens: seq<Token>)
    requires HasImage(tokens) && tokens[0].Plain?
    ensures |FirstSource(tokens).head| >= 5
  {
    assert HasImage(tokens[1..]);
    assert FirstSource(tokens).head == [tokens[0].c] + FirstSource(tokens[1..]).head;
  }

  /** A plain character of the original text is a plain character of the rewritten one. */
  lemma PlainStaysPlain(t: string, url: string -> string)
    requires t != "" && MatchAt(t).None?
    ensures MatchAt(Render(ResolveTokens(Scan(t), url))).None?
  {
    var tokens := Scan(t);
    RenderScan(t);
    assert tokens[0] == Plain(t[0]);
    if HasImage(tokens) {
      var out := ResolveTokens(tokens, url);
      HeadIsLong(tokens);
      SplitAtSource(tokens);
      SameHead(tokens, url);
      SplitAtSource(out);
      FirstSourceClean(tokens);
      SourceMayChange(FirstSource(tokens), t, FirstSource(out).Tail(), Render(out));
    } else {
      NoImageUnchanged(tokens, url);
    }
  }

  lemma {:induction false} RescanGivesRewrittenTokens(t: string, url: string -> string)
    requires AllClean(ResolveTokens(Scan(t), url))
    ensures Scan(Render(ResolveTokens(Scan(t), url))) == ResolveTokens(Scan(t), url)
    decreases |t|
  {
    if t != "" {
      var tokens := Scan(t);
      var out := ResolveTokens(tokens, url);
      var text := Render(out);
      var tail := match MatchAt(t) case Some(hit) => t[|ImageText(hit)|..] case None => t[1..];
      assert tokens[1..] == Scan(tail);
      assert out[1..] == ResolveTokens(Scan(tail), url);
      RescanGivesRewrittenTokens(tail, url);
      assert text == Text(out[0]) + Render(out[1..]);
      match MatchAt(t) {
        case Some(hit) =>
          var hit' := out[0].hit;
          assert CleanAlt(hit'.alt);
          MatchIsRegex(text, hit');
          assert text[|ImageText(hit')|..] == Render(out[1..]);
          assert Scan(text) == [Image(hit')] + Scan(Render(out[1..]));
        case None =>
          PlainStaysPlain(t, url);
          assert text[1..] == Render(out[1..]);
          assert Scan(text) == [Plain(text[0])] + Scan(text[1..]);
      }
    }
  }

  /** The URL of every storage key that occurs is usable as an image source, or there is none. */
  predicate UrlsUsable(tokens: seq<Token>, url: string -> string) {
    forall key | key in Keys(tokens) :: url(key) != "" ==> CleanSrc(url(key))
  }

  /**
   * Re-scanning the output gives the input's tokens with only the storage-key sources replaced
   * exactly when every URL obtained is free of white space and closing parentheses.
   */
  lemma RescanExact(t: string, url: string -> string)
    ensures var out := ResolveMarkdownImages(Some(t), url).value;
            Scan(out) == ResolveTokens(Scan(t), url) <==> UrlsUsable(Scan(t), url)
  {
    BatchedIsPerMatch(t, url);
    var tokens := Scan(t);
    var out := ResolveTokens(tokens, url);
    KeysAreStorageSources(tokens);
    if UrlsUsable(tokens, url) {
      forall i | 0 <= i < |out| && out[i].Image?
        ensures CleanSrc(out[i].hit.src)
      {
        assert tokens[i].Image? && (IsStorageKey(tokens[i].hit.src) ==> tokens[i].hit.src in Keys(tokens));
      }
      RescanGivesRewrittenTokens(t, url);
    }
    if Scan(Render(out)) == out {
      forall key | key in Keys(tokens) && url(key) != ""
        ensures CleanSrc(url(key))
      {
        var i :| 0 <= i < |tokens| && tokens[i].Image? && tokens[i].hit.src == key;
        assert out[i].Image? && out[i].hit.src == url(key);
      }
    }
  }

  /** A second rewrite leaves the URL of a key alone: it is no key, or one without a URL of its own. */
  predicate Settles(key: string, url: string -> string) {
    url(key) != "" && IsStorageKey(url(key)) ==> url(url(key)) == "" || url(url(key)) == url(key)
  }

  lemma ResolvedAgain(token: Token, url: string -> string)
    ensures var once := ResolveToken(token, url);
            ResolveToken(once, url) == once <==> token.Image? && IsStorageKey(token.hit.src) ==>
                Settles(token.hit.src, url)
  {
  }

  lemma TokensResolvedAgain(tokens: seq<Token>, url: string -> string)
    ensures var out := ResolveTokens(tokens, url);
            ResolveTokens(out, url) == out <==> forall key | key in Keys(tokens) :: Settles(key, url)
  {
    hide Settles;
    hide IsStorageKey;
    var out := ResolveTokens(tokens, url);
    KeysAreStorageSources(tokens);
    forall i | 0 <= i < |out|
      ensures ResolveToken(out[i], url) == out[i] <==>
                (tokens[i].Image? && tokens[i].hit.src in Keys(tokens) ==> Settles(tokens[i].hit.src, url))
    {
      ResolvedAgain(tokens[i], url);
    }
    if forall key | key in Keys(tokens) :: Settles(key, url) {
      assert forall i | 0 <= i < |out| :: ResolveTokens(out, url)[i] == out[i];
    } else {
      var key :| key in Keys(tokens) && !Settles(key, url);
      var i :| 0 <= i < |tokens| && tokens[i].Image? && tokens[i].hit.src == key;
      assert ResolveTokens(out, url)[i] != out[i];
    }
  }

  /**
   * With usable URLs, also for keys that URLs may be, rewriting twice equals rewriting once exactly
   * if the URL of every storage key that occurs settles.
   */
  lemma ResolveTwiceExactly(t: string, url: string -> string)
    requires UrlsUsable(Scan(t), url) && UrlsUsable(ResolveTokens(Scan(t), url), url)
    ensures var once := ResolveMarkdownImages(Some(t), url);
            ResolveMarkdownImages(once, url) == once <==> forall key | key in Keys(Scan(t)) :: Settles(key, url)
  {
    hide Settles;
    hide ResolveMarkdownImages;
    var out := ResolveTokens(Scan(t), url);
    BatchedIsPerMatch(t, url);
    RescanExact(t, url);
    BatchedIsPerMatch(Render(out), url);
    RescanExact(Render(out), url);
    TokensResolvedAgain(Scan(t), url);
  }

  /** So it does when the URLs are usable and none is itself a storage key. */
  lemma ResolveTwice(t: string, url: string -> string)
    requires UrlsUsable(Scan(t), url)
    requires forall key | key in Keys(Scan(t)) :: !IsStorageKey(url(key))
    ensures var once := ResolveMarkdownImages(Some(t), url);
            ResolveMarkdownImages(once, url) == once
  {
    var tokens, out := Scan(t), ResolveTokens(Scan(t), url);
    KeysAreStorageSources(tokens);
    KeysAreStorageSources(out);
    forall key | key in Keys(out)
      ensures url(key) == ""
    {
      var i :| 0 <= i < |out| && out[i].Image? && out[i].hit.src == key;
      assert IsStorageKey(tokens[i].hit.src) ==> tokens[i].hit.src in Keys(tokens);
    }
    hide ResolveMarkdownImages;
    ResolveTwiceExactly(t, url);
  }
}
