/**
 * The blog's post catalogue: post definitions, the markdown bundled for
 * each slug, the reading-time text and the lookup of a post by slug.
 */
module Posts {
  import opened Wrappers
  import opened Seqs
  import opened Numerals

  datatype PostDef = PostDef(
    slug: string, title: string, description: string, category: string, date: string, tags: seq<string>)

  datatype BlogPostMeta = BlogPostMeta(
    slug: string, title: string, description: string, category: string, date: string,
    readTime: string, tags: seq<string>)

  const PostDefs: seq<PostDef> := [
    PostDef(
      "escaping",
      "Escaping Executive Function",
      "Is it finally time to work on my executive functioning?",
      "Productivity",
      "2026-02-23",
      ["executive function", "productivity", "self-improvement"])
  ]

  const PostsDir := "/src/assets/posts/"
  const MarkdownSuffix := ".md"

  /** The key under which the bundler exposes the markdown of `slug`. */
  function PostPath(slug: string): (p: string)
    ensures |p| == |PostsDir| + |slug| + |MarkdownSuffix|
    ensures p[..|PostsDir|] == PostsDir && p[|PostsDir| + |slug|..] == MarkdownSuffix
    ensures p[|PostsDir|..|PostsDir| + |slug|] == slug
  {
    PostsDir + slug + MarkdownSuffix
  }

  /** Distinct slugs name distinct files. */
  lemma PostPathInjective(a: string, b: string)
    ensures PostPath(a) == PostPath(b) ==> a == b
  {
    if PostPath(a) == PostPath(b) {
      assert a == PostPath(a)[|PostsDir|..|PostsDir| + |a|];
      assert b == PostPath(b)[|PostsDir|..|PostsDir| + |b|];
    }
  }

  /** `getMarkdownContent`: the raw markdown bundled for `slug`, if any. */
  function MarkdownContent(files: map<string, string>, slug: string): (r: Option<string>)
    ensures r.Some? <==> PostPath(slug) in files
    ensures r.Some? ==> r.value == files[PostPath(slug)]
  {
    if PostPath(slug) in files then Some(files[PostPath(slug)]) else None
  }

  /**
   * The minute count of `getReadTime`; `rounded(content)` stands for the
   * reading-time estimate of `content` rounded to the nearest minute. A
   * missing or empty file counts as one minute; otherwise the estimate
   * counts, raised to one minute when it is less.
   */
  function ReadMinutes(files: map<string, string>, rounded: string -> int, slug: string): (m: nat)
    ensures m >= 1
    ensures MarkdownContent(files, slug) in {None, Some("")} ==> m == 1
    ensures MarkdownContent(files, slug).Some? && MarkdownContent(files, slug) != Some("") ==>
              m >= rounded(files[PostPath(slug)]) &&
              (m == rounded(files[PostPath(slug)]) || m == 1)
  {
    match MarkdownContent(files, slug)
    case None => 1
    case Some(content) =>
      if content == "" then 1
      else if rounded(content) < 1 then 1
      else rounded(content)
  }

  const MinRead := " min read"

  /** `getReadTime`: the minute count followed by " min read". */
  function ReadTime(files: map<string, string>, rounded: string -> int, slug: string): (text: string)
    ensures |text| > |MinRead| && text[|text| - |MinRead|..] == MinRead
  {
    Decimal(ReadMinutes(files, rounded, slug)) + MinRead
  }

  /** The text reads back: a numeral of at least one minute, then " min read". */
  lemma ReadTimeReadsBack(files: map<string, string>, rounded: string -> int, slug: string)
    ensures var text := ReadTime(files, rounded, slug);
      && |text| > |MinRead|
      && text[|text| - |MinRead|..] == MinRead
      && ParseDecimal(text[..|text| - |MinRead|]) == Some(ReadMinutes(files, rounded, slug))
      && ReadMinutes(files, rounded, slug) >= 1
  {
    var m := ReadMinutes(files, rounded, slug);
    var text := ReadTime(files, rounded, slug);
    assert text[..|text| - |MinRead|] == Decimal(m);
    DecimalRoundTrip(m);
  }

  /** Without its markdown a post reads in "1 min read". */
  lemma MissingFileReadsOneMinute(files: map<string, string>, rounded: string -> int, slug: string)
    requires PostPath(slug) !in files || files[PostPath(slug)] == ""
    ensures ReadTime(files, rounded, slug) == "1 min read"
  {
    assert Decimal(1) == "1";
  }

  /** A definition with its reading time added: `{ ...p, readTime: getReadTime(p.slug) }`. */
  function Meta(d: PostDef, files: map<string, string>, rounded: string -> int): (m: BlogPostMeta)
    ensures m.slug == d.slug && m.title == d.title && m.description == d.description
    ensures m.category == d.category && m.date == d.date && m.tags == d.tags
    ensures m.readTime == ReadTime(files, rounded, d.slug)
  {
    BlogPostMeta(d.slug, d.title, d.description, d.category, d.date, ReadTime(files, rounded, d.slug), d.tags)
  }

  /** `posts`: one entry per definition, in order, each field copied and the reading time added. */
  function PostsOf(defs: seq<PostDef>, files: map<string, string>, rounded: string -> int): (ps: seq<BlogPostMeta>)
    ensures |ps| == |defs|
    ensures forall i :: 0 <= i < |defs| ==>
              && ps[i].slug == defs[i].slug && ps[i].title == defs[i].title
              && ps[i].description == defs[i].description && ps[i].category == defs[i].category
              && ps[i].date == defs[i].date && ps[i].tags == defs[i].tags
              && ps[i].readTime == ReadTime(files, rounded, defs[i].slug)
  {
    seq(|defs|, i requires 0 <= i < |defs| => Meta(defs[i], files, rounded))
  }

  predicate HasSlug(slug: string, p: BlogPostMeta) {
    p.slug == slug
  }

  /** Post `i` is definition `i` with its reading time, and has the slug exactly when the definition has. */
  lemma PostsMatchDefs(defs: seq<PostDef>, files: map<string, string>, rounded: string -> int, slug: string)
    ensures var ps := PostsOf(defs, files, rounded);
      forall i :: 0 <= i < |ps| ==> ps[i] == Meta(defs[i], files, rounded) && (HasSlug(slug, ps[i]) <==> defs[i].slug == slug)
  {
  }

  /**
   * `getPostBySlug`: a post is found exactly when some definition has the
   * slug, and it is then the first such definition with its reading time.
   */
  function PostBySlug(defs: seq<PostDef>, files: map<string, string>, rounded: string -> int, slug: string):
    (r: Option<BlogPostMeta>)
    ensures r.Some? <==> exists i :: 0 <= i < |defs| && defs[i].slug == slug
    ensures r.Some? ==>
              exists i :: 0 <= i < |defs| && defs[i].slug == slug && (forall k :: 0 <= k < i ==> defs[k].slug != slug) &&
                r.value == Meta(defs[i], files, rounded)
  {
    PostsMatchDefs(defs, files, rounded, slug);
    Find(PostsOf(defs, files, rounded), p => HasSlug(slug, p))
  }

  /** The site's one post is found by its slug, and every other slug finds nothing. */
  lemma SitePosts(files: map<string, string>, rounded: string -> int, slug: string)
    ensures slug == "escaping" ==> PostBySlug(PostDefs, files, rounded, slug) == Some(Meta(PostDefs[0], files, rounded))
    ensures slug != "escaping" ==> PostBySlug(PostDefs, files, rounded, slug) == None
  {
  }
}
