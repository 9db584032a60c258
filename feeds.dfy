/**
 * The values that flow through one ingestion pass: feed sources, parsed feed
 * entries, stored posts, the image fallback chain and the excerpt rule that both
 * copies of the ingestion code share.
 */
module Feeds {
  import opened Wrappers
  import opened Text

  /** One `(category, url)` pair of the module-level FEEDS list. */
  datatype FeedSource = FeedSource(category: string, url: string)

  /**
   * One entry of `feedparser.parse(url).entries`. `None` means the attribute is
   * absent from the entry. For `mediaContent` each element is `m.get('url')`
   * (`None` when the dict has no `url` key); for `enclosures` each element is the
   * enclosure's `url` attribute (`None` when it has none, so reading it raises).
   */
  datatype Entry = Entry(
    link: Option<string>,
    title: Option<string>,
    summary: Option<string>,
    description: Option<string>,
    published: Option<string>,
    mediaContent: Option<seq<Option<string>>>,
    enclosures: Option<seq<Option<string>>>)

  /** A row of the `post` table (the `id` column is assigned by the database). */
  datatype Post = Post(
    title: string,
    excerpt: string,
    link: string,
    image: string,
    category: string,
    pubDate: string)

  /** The image shown when an entry carries none (also the column default). */
  const Placeholder: string := "https://via.placeholder.com/800x500/0f172a/f8fafc?text=NaijaBuzz"

  /** The outcome of `extract_image`: a URL, or the AttributeError of an enclosure without `url`. */
  datatype ImageResult = Image(url: string) | Raised

  /** `entry.media_content` when the entry has it; a missing attribute scans like an empty list. */
  function MediaOf(e: Entry): seq<Option<string>> {
    e.mediaContent.GetOr([])
  }

  function EnclosuresOf(e: Entry): seq<Option<string>> {
    e.enclosures.GetOr([])
  }

  /**
   * Whether the scan stops at `u`: it stops at a present URL that `accept` takes,
   * and, when `stopOnMissing` holds, at a missing one (where reading it raises).
   */
  predicate Stops(u: Option<string>, accept: string -> bool, stopOnMissing: bool) {
    if u.None? then stopOnMissing else accept(u.value)
  }

  /** `i` is the first position at which the scan of `xs` stops. */
  ghost predicate FirstStopAt(xs: seq<Option<string>>, accept: string -> bool, stopOnMissing: bool, i: int) {
    0 <= i < |xs| && Stops(xs[i], accept, stopOnMissing)
    && forall j :: 0 <= j < i ==> !Stops(xs[j], accept, stopOnMissing)
  }

  /** The scan never stops in `xs`. */
  ghost predicate NeverStops(xs: seq<Option<string>>, accept: string -> bool, stopOnMissing: bool) {
    forall j :: 0 <= j < |xs| ==> !Stops(xs[j], accept, stopOnMissing)
  }

  /** The `for ... : if ...: return` loop of `extract_image`: where it leaves the list. */
  function FirstStop(xs: seq<Option<string>>, accept: string -> bool, stopOnMissing: bool): (r: Option<nat>)
    ensures r.Some? ==> FirstStopAt(xs, accept, stopOnMissing, r.value)
    ensures r.None? ==> NeverStops(xs, accept, stopOnMissing)
  {
    if xs == [] then None
    else if Stops(xs[0], accept, stopOnMissing) then Some(0)
    else
      match FirstStop(xs[1..], accept, stopOnMissing)
      case None => None
      case Some(i) => Some(i + 1)
  }

  /**
   * The fallback chain shared by both `extract_image` copies: the first accepted
   * `media_content` URL, else the first accepted enclosure URL (an enclosure without
   * a `url` met before it raises), else the placeholder.
   */
  function ChooseImage(e: Entry, accept: string -> bool): (r: ImageResult)
    ensures forall i :: FirstStopAt(MediaOf(e), accept, false, i) ==> r == Image(MediaOf(e)[i].value)
    ensures NeverStops(MediaOf(e), accept, false) ==>
      forall i :: FirstStopAt(EnclosuresOf(e), accept, true, i) ==>
        r == if EnclosuresOf(e)[i].None? then Raised else Image(EnclosuresOf(e)[i].value)
    ensures NeverStops(MediaOf(e), accept, false) && NeverStops(EnclosuresOf(e), accept, true) ==>
      r == Image(Placeholder)
    ensures r.Image? ==> r.url == Placeholder || accept(r.url)
  {
    var media := MediaOf(e);
    match FirstStop(media, accept, false)
    case Some(i) => Image(media[i].value)
    case None =>
      var enclosures := EnclosuresOf(e);
      match FirstStop(enclosures, accept, true)
      case Some(i) => if enclosures[i].None? then Raised else Image(enclosures[i].value)
      case None => Image(Placeholder)
  }

  /** Characters of stripped text kept in an excerpt (`[:340]`). */
  const ExcerptBudget: nat := 340

  /** Appended to every excerpt, truncated or not. */
  const Ellipsis: string := "..."

  /** `text[:340] + "..."` */
  function Excerpt(text: string): (r: string)
    ensures |Ellipsis| <= |r| <= ExcerptBudget + |Ellipsis|
    ensures r[|r| - |Ellipsis|..] == Ellipsis
    ensures StartsWith(text, r[..|r| - |Ellipsis|])
    ensures |text| >= ExcerptBudget ==> |r| == ExcerptBudget + |Ellipsis|
    ensures |text| <= ExcerptBudget ==> r[..|r| - |Ellipsis|] == text
  {
    Take(text, ExcerptBudget) + Ellipsis
  }

  /** The links of a sequence of posts. */
  function LinksOf(posts: seq<Post>): set<string> {
    set i | 0 <= i < |posts| :: posts[i].link
  }

  /** No two posts share a link (the `unique=True` constraint of the `link` column). */
  ghost predicate UniqueLinks(posts: seq<Post>) {
    forall i, j :: 0 <= i < j < |posts| ==> posts[i].link != posts[j].link
  }

  lemma LinksOfAppend(posts: seq<Post>, p: Post)
    ensures LinksOf(posts + [p]) == LinksOf(posts) + {p.link}
  {
    var q := posts + [p];
    assert q[|posts|] == p;
    forall l | l in LinksOf(posts) ensures l in LinksOf(q) {
      var i :| 0 <= i < |posts| && posts[i].link == l;
      assert q[i] == posts[i];
    }
  }

  lemma LinksOfConcat(a: seq<Post>, b: seq<Post>)
    ensures LinksOf(a + b) == LinksOf(a) + LinksOf(b)
  {
    var q := a + b;
    forall l | l in LinksOf(a) ensures l in LinksOf(q) {
      var i :| 0 <= i < |a| && a[i].link == l;
      assert q[i] == a[i];
    }
    forall l | l in LinksOf(b) ensures l in LinksOf(q) {
      var i :| 0 <= i < |b| && b[i].link == l;
      assert q[|a| + i] == b[i];
    }
  }

  /** Appending a post whose link is new keeps the links unique. */
  lemma UniqueLinksAppend(posts: seq<Post>, p: Post)
    requires UniqueLinks(posts) && p.link !in LinksOf(posts)
    ensures UniqueLinks(posts + [p])
  {
    var q := posts + [p];
    forall i, j | 0 <= i < j < |q| ensures q[i].link != q[j].link {
      if j == |posts| {
        assert q[i] == posts[i];
        assert posts[i].link in LinksOf(posts);
      } else {
        assert q[i] == posts[i] && q[j] == posts[j];
      }
    }
  }
}
