/**
 * Cover-image path normalisation (web/src/utils/image.ts).
 *
 * Product records store their cover image as an asset path in several
 * historical spellings ("public/assets/imgs/albuns/x.jpg",
 * "assets/imgs/x.jpg", "/albuns/x.jpg", ...). `NormalizeCoverPath` rewrites
 * them into one site-absolute URL path. Every rewrite is anchored at the
 * start of the string, like a `replace` with a `^`-anchored pattern.
 */
module Image {

  /** Shown when a product has no cover at all. */
  const Placeholder: string := "/icons/under-construction.png"

  const PublicDir: string := "public/"
  const AlbumsDir: string := "assets/imgs/albuns/"
  const AlbumsRoot: string := "albuns/"
  const ImgsDir: string := "assets/imgs/"

  /** `s` with its leading `pre` replaced by `repl`; `s` itself when it does not start with `pre`. */
  function ReplaceLeading(s: string, pre: string, repl: string): string
  {
    if pre <= s then repl + s[|pre|..] else s
  }

  /** `s` made site-absolute: a `/` is put in front unless one is already there. */
  function Rooted(s: string): string
  {
    if "/" <= s then s else "/" + s
  }

  /** The rewrites after `public/` is gone: album folder, image folder, leading `/`. */
  function RewriteAssets(q: string): string
  {
    var albums := ReplaceLeading(q, AlbumsDir, AlbumsRoot);
    var noImgs := ReplaceLeading(albums, ImgsDir, "");
    Rooted(noImgs)
  }

  /** The chain of rewrites applied to a stored cover path. */
  function NormalizeCoverPath(p: string): (r: string)
    ensures p == "" ==> r == Placeholder
    ensures |r| > 0 && r[0] == '/'
  {
    if p == "" then Placeholder
    else RewriteAssets(ReplaceLeading(p, PublicDir, ""))
  }

  /** `pre` is not a prefix of `a + s` once they differ at a position inside both `pre` and `a`. */
  lemma MismatchNotPrefix(pre: string, a: string, s: string, i: nat)
    requires i < |pre| && i < |a| && pre[i] != a[i]
    ensures !(pre <= a + s)
  {
    assert (a + s)[i] == a[i];
  }

  /** A common head does not change whether one string is a prefix of another. */
  lemma CommonHeadPrefix(head: string, pre: string, s: string)
    ensures (head + pre <= head + s) <==> (pre <= s)
  {
    if head + pre <= head + s {
      assert pre == (head + pre)[|head|..] == (head + s)[|head|..|head| + |pre|] == s[..|pre|];
    }
    if pre <= s {
      assert (head + s)[..|head| + |pre|] == head + s[..|pre|];
    }
  }

  /** A path that is already site-absolute is left exactly as it is. */
  lemma NormalizeKeepsRooted(p: string)
    requires |p| > 0 && p[0] == '/'
    ensures NormalizeCoverPath(p) == p
  {
    assert p == [p[0]] + p[1..];
    MismatchNotPrefix(PublicDir, [p[0]], p[1..], 0);
    MismatchNotPrefix(AlbumsDir, [p[0]], p[1..], 0);
    MismatchNotPrefix(ImgsDir, [p[0]], p[1..], 0);
  }

  /** Normalising twice is normalising once. */
  lemma NormalizeIdempotent(p: string)
    ensures NormalizeCoverPath(NormalizeCoverPath(p)) == NormalizeCoverPath(p)
  {
    NormalizeKeepsRooted(NormalizeCoverPath(p));
  }

  /** Nothing in `albuns/...` is touched by the later rewrites except the leading `/`. */
  lemma RootedAlbums(s: string)
    ensures ReplaceLeading(AlbumsRoot + s, ImgsDir, "") == AlbumsRoot + s
    ensures Rooted(AlbumsRoot + s) == "/albuns/" + s
  {
    MismatchNotPrefix(ImgsDir, AlbumsRoot, s, 1);
    MismatchNotPrefix("/", AlbumsRoot, s, 0);
  }

  /**
   * A single leading `public/` is simply dropped: what follows it is
   * normalised as if it had been stored without it.
   */
  lemma NormalizeDropsPublic(s: string)
    requires s != "" && !(PublicDir <= s)
    ensures NormalizeCoverPath(PublicDir + s) == NormalizeCoverPath(s)
  {
    assert PublicDir <= PublicDir + s;
    assert ReplaceLeading(PublicDir + s, PublicDir, "") == s by {
      assert (PublicDir + s)[|PublicDir|..] == s;
    }
  }

  /** Album covers, with or without the `public/` prefix, land under `/albuns/`. */
  lemma NormalizeAlbumPath(s: string)
    ensures NormalizeCoverPath(AlbumsDir + s) == "/albuns/" + s
    ensures NormalizeCoverPath(PublicDir + AlbumsDir + s) == "/albuns/" + s
  {
    MismatchNotPrefix(PublicDir, AlbumsDir, s, 0);
    assert ReplaceLeading(AlbumsDir + s, AlbumsDir, AlbumsRoot) == AlbumsRoot + s by {
      assert (AlbumsDir + s)[|AlbumsDir|..] == s;
    }
    RootedAlbums(s);
    assert PublicDir + AlbumsDir + s == PublicDir + (AlbumsDir + s);
    NormalizeDropsPublic(AlbumsDir + s);
  }

  /**
   * Other images under `assets/imgs/`, with or without `public/`, lose that
   * prefix; the rest is made site-absolute.
   */
  lemma NormalizeImgsPath(s: string)
    requires !(AlbumsRoot <= s)
    ensures NormalizeCoverPath(ImgsDir + s) == (if "/" <= s then s else "/" + s)
    ensures NormalizeCoverPath(PublicDir + ImgsDir + s) == (if "/" <= s then s else "/" + s)
  {
    MismatchNotPrefix(PublicDir, ImgsDir, s, 0);
    assert !(AlbumsDir <= ImgsDir + s) by {
      assert AlbumsDir == ImgsDir + AlbumsRoot;
      CommonHeadPrefix(ImgsDir, AlbumsRoot, s);
    }
    assert ReplaceLeading(ImgsDir + s, ImgsDir, "") == s by {
      assert (ImgsDir + s)[|ImgsDir|..] == s;
    }
    assert PublicDir + ImgsDir + s == PublicDir + (ImgsDir + s);
    NormalizeDropsPublic(ImgsDir + s);
  }

  /** Only one leading `public/` is removed: `public/public/x` becomes `/public/x`. */
  lemma NormalizeStripsOnePublic(s: string)
    ensures NormalizeCoverPath(PublicDir + PublicDir + s) == "/" + PublicDir + s
  {
    assert ReplaceLeading(PublicDir + PublicDir + s, PublicDir, "") == PublicDir + s by {
      assert (PublicDir + PublicDir + s)[|PublicDir|..] == PublicDir + s;
    }
    MismatchNotPrefix(AlbumsDir, PublicDir, s, 0);
    MismatchNotPrefix(ImgsDir, PublicDir, s, 0);
    MismatchNotPrefix("/", PublicDir, s, 0);
  }

  /** A path with none of the known prefixes only gains a leading `/`. */
  lemma NormalizePlainPath(p: string)
    requires p != ""
    requires !(PublicDir <= p) && !(ImgsDir <= p) && !("/" <= p)
    ensures NormalizeCoverPath(p) == "/" + p
  {
    assert AlbumsDir[..|ImgsDir|] == ImgsDir;
  }

  /** The stripped prefixes: what may be cut from the front of a stored path. */
  predicate IsStrippedPrefix(s: string)
  {
    s == "" || s == PublicDir || s == ImgsDir || s == AlbumsDir
    || s == PublicDir + ImgsDir || s == PublicDir + AlbumsDir
  }

  /** How much of `p` the rewrites cut off: an optional `public/`, then an optional `assets/imgs/` or `assets/imgs/albuns/`. */
  ghost function StrippedLength(p: string): nat
  {
    var k1 := if PublicDir <= p then |PublicDir| else 0;
    if AlbumsDir <= p[k1..] then k1 + |AlbumsDir|
    else if ImgsDir <= p[k1..] then k1 + |ImgsDir|
    else k1
  }

  lemma StrippedPrefixIsKnown(p: string)
    ensures StrippedLength(p) <= |p| && IsStrippedPrefix(p[..StrippedLength(p)])
  {
    var k1 := if PublicDir <= p then |PublicDir| else 0;
    assert p[..k1] == "" || p[..k1] == PublicDir;
    var k := StrippedLength(p);
    if AlbumsDir <= p[k1..] {
      assert p[..k] == p[..k1] + AlbumsDir;
    } else if ImgsDir <= p[k1..] {
      assert p[..k] == p[..k1] + ImgsDir;
    }
  }

  lemma NormalizeEndsWithRest(p: string)
    requires p != ""
    ensures StrippedLength(p) <= |p|
    ensures var rest := p[StrippedLength(p)..];
            NormalizeCoverPath(p) in {rest, "/" + rest, "/albuns/" + rest}
  {
    var k1 := if PublicDir <= p then |PublicDir| else 0;
    var q := p[k1..];
    assert ReplaceLeading(p, PublicDir, "") == q;
    var k := StrippedLength(p);
    if AlbumsDir <= q {
      assert q[|AlbumsDir|..] == p[k..];
      RootedAlbums(p[k..]);
    } else if ImgsDir <= q {
      assert q[|ImgsDir|..] == p[k..];
      assert NormalizeCoverPath(p) == Rooted(p[k..]);
    } else {
      assert NormalizeCoverPath(p) == Rooted(p[k..]);
    }
  }

  /**
   * Nothing but a prefix is altered: the result is the input with a known
   * prefix cut off, and at most `/` or `/albuns/` put in its place.
   */
  lemma NormalizeKeepsSuffix(p: string)
    requires p != ""
    ensures exists k :: 0 <= k <= |p| && IsStrippedPrefix(p[..k])
              && NormalizeCoverPath(p) in {p[k..], "/" + p[k..], "/albuns/" + p[k..]}
  {
    StrippedPrefixIsKnown(p);
    NormalizeEndsWithRest(p);
    var k := StrippedLength(p);
    assert 0 <= k <= |p| && IsStrippedPrefix(p[..k])
      && NormalizeCoverPath(p) in {p[k..], "/" + p[k..], "/albuns/" + p[k..]};
  }
}
