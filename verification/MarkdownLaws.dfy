/**
 * The answer of the image rewriter for every text, told by where images begin and not by the scanner:
 * up to the first image the text is kept, the image gets its URL, and what follows is answered alike.
 */
module MarkdownLaws {
  import opened Types
  import opened MarkdownImages

  lemma CleanMeans(alt: string, src: string)
    ensures CleanAlt(alt) <==> ']' !in alt
    ensures CleanSrc(src) <==> src != "" && ')' !in src && forall c | c in src :: !IsSpace(c)
  {
  }

  lemma StorageKeysBegin(value: string)
    ensures IsStorageKey(value) <==>
              || "attachments/" <= value || "descriptions/" <= value || "comments/" <= value
              || "boards/" <= value || "users/" <= value
  {
    assert STORAGE_KEY_PREFIXES[0] == "attachments/" && STORAGE_KEY_PREFIXES[1] == "descriptions/";
    assert STORAGE_KEY_PREFIXES[2] == "comments/" && STORAGE_KEY_PREFIXES[3] == "boards/";
    assert STORAGE_KEY_PREFIXES[4] == "users/";
  }

  /** The text begins with `![alt](src)`, where neither part could have ended earlier. */
  predicate Begins(t: string, hit: Hit) {
    CleanAlt(hit.alt) && CleanSrc(hit.src) && ImageText(hit) <= t
  }

  ghost predicate NoImageAt(t: string, i: nat)
    requires i <= |t|
  {
    forall hit :: !Begins(t[i..], hit)
  }

  /** No image begins before the position `n`. */
  ghost predicate NoImageBefore(t: string, n: nat)
    requires n <= |t|
  {
    forall i | 0 <= i < n :: NoImageAt(t, i)
  }

  /** A source that is a storage key gives way to its URL, if there is one. */
  function Resolved(hit: Hit, url: string -> string): Hit {
    if IsStorageKey(hit.src) && url(hit.src) != "" then Hit(hit.alt, url(hit.src)) else hit
  }

  // ---- One position at a time -----------------------------------------------------------

  function Rewritten(t: string, url: string -> string): string {
    Render(ResolveTokens(Scan(t), url))
  }

  lemma AnswerIsRewritten(t: string, url: string -> string)
    ensures ResolveMarkdownImages(Some(t), url) == Some(Rewritten(t, url))
    ensures Rewritten("", url) == "" && ResolveMarkdownImages(None, url) == None
  {
    BatchedIsPerMatch(t, url);
  }

  lemma PlainIsKept(t: string, url: string -> string)
    requires t != "" && NoImageAt(t, 0)
    ensures Rewritten(t, url) == [t[0]] + Rewritten(t[1..], url)
  {
    assert t[0..] == t;
    if MatchAt(t).Some? {
      MatchIsRegex(t, MatchAt(t).value);
      assert Begins(t[0..], MatchAt(t).value);
    }
    var tokens := [Plain(t[0])] + Scan(t[1..]);
    assert tokens[1..] == Scan(t[1..]);
    var out := [tokens[0]] + ResolveTokens(Scan(t[1..]), url);
    assert out[1..] == ResolveTokens(Scan(t[1..]), url);
  }

  lemma ImageIsRewritten(t: string, hit: Hit, url: string -> string)
    requires Begins(t, hit)
    ensures Rewritten(t, url) == ImageText(Resolved(hit, url)) + Rewritten(t[|ImageText(hit)|..], url)
  {
    MatchIsRegex(t, hit);
    var rest := Scan(t[|ImageText(hit)|..]);
    var tokens := [Image(hit)] + rest;
    assert tokens[1..] == rest;
    var out := [Image(Resolved(hit, url))] + ResolveTokens(rest, url);
    assert out[1..] == ResolveTokens(rest, url);
  }

  lemma NextPosition(t: string, n: nat)
    requires 0 < n <= |t| && NoImageBefore(t, n)
    ensures NoImageAt(t, 0) && NoImageBefore(t[1..], n - 1)
  {
    forall i | 0 <= i < n - 1
      ensures NoImageAt(t[1..], i)
    {
      assert NoImageAt(t, i + 1) && t[1..][i..] == t[i + 1..];
    }
  }

  lemma {:induction false} PrefixIsKept(t: string, n: nat, url: string -> string)
    requires n <= |t| && NoImageBefore(t, n)
    ensures Rewritten(t, url) == t[..n] + Rewritten(t[n..], url)
    decreases n
  {
    hide Rewritten;
    hide NoImageBefore;
    if n == 0 {
      assert t[0..] == t;
    } else {
      NextPosition(t, n);
      PlainIsKept(t, url);
      PrefixIsKept(t[1..], n - 1, url);
      assert t[1..][n - 1..] == t[n..] && [t[0]] + t[1..][..n - 1] == t[..n];
    }
  }

  // ---- The answer for every text --------------------------------------------------------

  /** Up to the first image the text stays, that image's source is resolved, and so is what follows. */
  lemma FirstImageIsResolved(pre: string, hit: Hit, post: string, url: string -> string)
    requires CleanAlt(hit.alt) && CleanSrc(hit.src)
    requires NoImageBefore(pre + ImageText(hit) + post, |pre|)
    ensures var answer := ResolveMarkdownImages(Some(post), url);
            && answer.Some?
            && ResolveMarkdownImages(Some(pre + ImageText(hit) + post), url) ==
               Some(pre + ImageText(Resolved(hit, url)) + answer.value)
  {
    hide NoImageBefore;
    hide Resolved;
    hide Rewritten;
    hide ImageText;
    hide ResolveMarkdownImages;
    var t, image := pre + ImageText(hit) + post, ImageText(hit);
    AnswerIsRewritten(t, url);
    AnswerIsRewritten(post, url);
    PrefixIsKept(t, |pre|, url);
    assert t[..|pre|] == pre && t[|pre|..] == image + post && (image + post)[|image|..] == post;
    ImageIsRewritten(image + post, hit, url);
    var resolved, rest := ImageText(Resolved(hit, url)), Rewritten(post, url);
    assert pre + (resolved + rest) == pre + resolved + rest;
  }

  /** A text without images is answered as it is, and so is no text. */
  lemma NoImageNoChange(t: string, url: string -> string)
    requires NoImageBefore(t, |t|)
    ensures ResolveMarkdownImages(Some(t), url) == Some(t) && ResolveMarkdownImages(None, url) == None
  {
    hide NoImageBefore;
    hide Rewritten;
    hide ResolveMarkdownImages;
    AnswerIsRewritten(t, url);
    PrefixIsKept(t, |t|, url);
    assert t[|t|..] == "" && t[..|t|] + "" == t;
  }

  /** One of the two always applies: a text has a first image, or none. */
  lemma {:induction false} FirstImageOrNone(t: string, n: nat)
    requires n <= |t| && NoImageBefore(t, n)
    ensures || NoImageBefore(t, |t|)
            || exists pre, hit, post :: t == pre + ImageText(hit) + post && CleanAlt(hit.alt) && CleanSrc(hit.src)
                                        && NoImageBefore(t, |pre|)
    decreases |t| - n
  {
    if n < |t| {
      if NoImageAt(t, n) {
        FirstImageOrNone(t, n + 1);
      } else {
        var hit :| Begins(t[n..], hit);
        var image := ImageText(hit);
        var post := t[n..][|image|..];
        assert t == t[..n] + image + post;
      }
    }
  }
}
