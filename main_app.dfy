/**
 * main.py: the database URI rewrite, `extract_image` (URLs must start with "http"),
 * the `time_ago` template filter and the `/generate` ingestion route.
 */
module MainApp {
  import opened Wrappers
  import opened Text
  import opened Feeds
  import opened Store
  import opened Ingestion

  // ---------------------------------------------------------------------------
  // Database URI (module start-up)

  const DefaultDatabaseUri: string := "sqlite:///posts.db"
  const LegacyScheme: string := "postgres://"
  const Scheme: string := "postgresql://"

  /** Rewrites Heroku's legacy `postgres://` scheme to the `postgresql://` SQLAlchemy accepts. */
  function RewriteScheme(uri: string): (r: string)
    ensures StartsWith(uri, LegacyScheme) ==> r == Scheme + uri[|LegacyScheme|..]
    ensures !StartsWith(uri, LegacyScheme) ==> r == uri
    ensures !StartsWith(r, LegacyScheme)
  {
    if StartsWith(uri, LegacyScheme) then
      ReplaceFirstAtStart(uri, LegacyScheme, Scheme);
      var r := Scheme + uri[|LegacyScheme|..];
      assert r[8] != LegacyScheme[8];
      ReplaceFirst(uri, LegacyScheme, Scheme)
    else uri
  }

  /** Applying the rewrite to its own result changes nothing. */
  lemma RewriteSchemeIdempotent(uri: string)
    ensures RewriteScheme(RewriteScheme(uri)) == RewriteScheme(uri)
  {
    assert !StartsWith(RewriteScheme(uri), LegacyScheme);
  }

  /** `os.environ.get('DATABASE_URL') or 'sqlite:///posts.db'`, then the scheme rewrite. */
  function DatabaseUri(env: Option<string>): (r: string)
    ensures env.None? || env.value == "" ==> r == DefaultDatabaseUri
    ensures env.Some? && env.value != "" && StartsWith(env.value, LegacyScheme) ==>
      r == Scheme + env.value[|LegacyScheme|..]
    ensures env.Some? && env.value != "" && !StartsWith(env.value, LegacyScheme) ==> r == env.value
    ensures r != "" && !StartsWith(r, LegacyScheme)
  {
    assert DefaultDatabaseUri[0] != LegacyScheme[0];
    RewriteScheme(if env.None? || env.value == "" then DefaultDatabaseUri else env.value)
  }

  // ---------------------------------------------------------------------------
  // extract_image

  /** `url.startswith('http')` (which also rules out the empty string). */
  predicate HttpUrl(url: string) {
    StartsWith(url, "http")
  }

  /**
   * The first `media_content` URL starting with "http", else the first enclosure URL
   * starting with "http", else the placeholder; an enclosure without `url` met first raises.
   */
  function ExtractImage(e: Entry): (r: ImageResult)
    ensures forall i :: FirstStopAt(MediaOf(e), HttpUrl, false, i) ==> r == Image(MediaOf(e)[i].value)
    ensures NeverStops(MediaOf(e), HttpUrl, false) ==>
      forall i :: FirstStopAt(EnclosuresOf(e), HttpUrl, true, i) ==>
        r == if EnclosuresOf(e)[i].None? then Raised else Image(EnclosuresOf(e)[i].value)
    ensures NeverStops(MediaOf(e), HttpUrl, false) && NeverStops(EnclosuresOf(e), HttpUrl, true) ==>
      r == Image(Placeholder)
    ensures r.Image? ==> r.url != "" && (HttpUrl(r.url) || r.url == Placeholder)
  {
    ChooseImage(e, HttpUrl)
  }

  // ---------------------------------------------------------------------------
  // time_ago

  const SecondsPerDay: int := 86400

  /**
   * What the opaque part of `time_ago` produces for a parsable date: `dt.strftime("%b %d")`
   * and `now - dt` in whole seconds, rounded down.
   */
  datatype Parsed = Parsed(monthDay: string, elapsed: int)

  /** The labels `time_ago` can give a parsed date. */
  datatype Age = JustNow | MinutesAgo(minutes: nat) | OneHourAgo | HoursAgo(hours: nat) | DaysAgo(days: nat) | OnDate(text: string)

  /** The branch chain over the timedelta's `days` and `seconds` (seconds in [0, 86400)). */
  function Bucket(p: Parsed): Age {
    var days := p.elapsed / SecondsPerDay;
    var seconds := p.elapsed % SecondsPerDay;
    if days >= 30 then OnDate(p.monthDay)
    else if days >= 1 then DaysAgo(days)
    else if seconds >= 7200 then HoursAgo(seconds / 3600)
    else if seconds >= 3600 then OneHourAgo
    else if seconds >= 120 then MinutesAgo(seconds / 60)
    else JustNow
  }

  function Render(a: Age): string {
    match a
    case JustNow => "Just now"
    case MinutesAgo(m) => NatToString(m) + "m ago"
    case OneHourAgo => "1h ago"
    case HoursAgo(h) => NatToString(h) + "h ago"
    case DaysAgo(d) => NatToString(d) + "d ago"
    case OnDate(text) => text
  }

  /**
   * `time_ago(date_str)`. `parse` stands for `date_parser.parse` followed by the
   * subtraction from `datetime.now()`; `None` when either raises.
   */
  function TimeAgo(dateStr: Option<string>, parse: string -> Option<Parsed>): (r: string)
    ensures dateStr.None? || dateStr.value == "" ==> r == "Just now"
    ensures dateStr.Some? && dateStr.value != "" && parse(dateStr.value).None? ==> r == "Recently"
  {
    if dateStr.None? || dateStr.value == "" then "Just now"
    else
      match parse(dateStr.value)
      case None => "Recently"
      case Some(p) => Render(Bucket(p))
  }

  /** For a date in the past, the label read off the total elapsed seconds. */
  lemma TimeAgoOfPastDate(dateStr: string, parse: string -> Option<Parsed>)
    requires dateStr != "" && parse(dateStr).Some? && parse(dateStr).value.elapsed >= 0
    ensures var p := parse(dateStr).value; var e := p.elapsed; var r := TimeAgo(Some(dateStr), parse);
      && (e >= 30 * SecondsPerDay ==> r == p.monthDay)
      && (SecondsPerDay <= e < 30 * SecondsPerDay ==> r == NatToString(e / SecondsPerDay) + "d ago")
      && (7200 <= e < SecondsPerDay ==> r == NatToString(e / 3600) + "h ago" && 2 <= e / 3600 <= 23)
      && (3600 <= e < 7200 ==> r == "1h ago")
      && (120 <= e < 3600 ==> r == NatToString(e / 60) + "m ago" && 2 <= e / 60 <= 59)
      && (e < 120 ==> r == "Just now")
  {
    var p := parse(dateStr).value;
    var e := p.elapsed;
    if e < SecondsPerDay {
      assert e / SecondsPerDay == 0 && e % SecondsPerDay == e;
    } else {
      assert e / SecondsPerDay >= 1;
    }
    if e >= 30 * SecondsPerDay {
      assert e / SecondsPerDay >= 30;
    } else if e >= SecondsPerDay {
      assert e / SecondsPerDay < 30;
    }
  }

  /** Every label of a past date brackets the elapsed time: it never overstates or understates by a unit. */
  lemma {:induction false} BucketBracketsElapsed(p: Parsed)
    requires p.elapsed >= 0
    ensures match Bucket(p)
      case JustNow => p.elapsed < 120
      case MinutesAgo(m) => 2 <= m <= 59 && m * 60 <= p.elapsed < (m + 1) * 60
      case OneHourAgo => 3600 <= p.elapsed < 7200
      case HoursAgo(h) => 2 <= h <= 23 && h * 3600 <= p.elapsed < (h + 1) * 3600
      case DaysAgo(d) => 1 <= d < 30 && d * SecondsPerDay <= p.elapsed < (d + 1) * SecondsPerDay
      case OnDate(_) => p.elapsed >= 30 * SecondsPerDay
  {
    var e := p.elapsed;
    var days := e / SecondsPerDay;
    assert days * SecondsPerDay <= e < (days + 1) * SecondsPerDay;
    if days == 0 {
      assert e % SecondsPerDay == e;
    }
  }

  /**
   * A date up to 22 hours in the future (a naive local timestamp ahead of the server clock)
   * gives a timedelta with `days == -1` and a large `seconds`, so it reads as hours in the past.
   */
  lemma FutureDateReadsAsHoursAgo(p: Parsed)
    requires -79200 <= p.elapsed < 0
    ensures Bucket(p).HoursAgo? && Bucket(p).hours >= 2
    ensures p == Parsed(p.monthDay, -3600) ==> Bucket(p) == HoursAgo(23)
  {
    assert p.elapsed / SecondsPerDay == -1;
    assert p.elapsed % SecondsPerDay == p.elapsed + SecondsPerDay;
  }

  /** The evidently intended classification: a date that is not in the past is "Just now". */
  function IntendedBucket(p: Parsed): Age {
    if p.elapsed < 0 then JustNow else Bucket(p)
  }

  /** `time_ago` with the intended classification. */
  function IntendedTimeAgo(dateStr: Option<string>, parse: string -> Option<Parsed>): (r: string)
    ensures dateStr.Some? && dateStr.value != "" && parse(dateStr.value).Some? ==>
      r == Render(IntendedBucket(parse(dateStr.value).value))
    ensures dateStr.Some? && dateStr.value != "" && parse(dateStr.value).Some? && parse(dateStr.value).value.elapsed >= 0 ==>
      r == TimeAgo(dateStr, parse)
  {
    if dateStr.None? || dateStr.value == "" then "Just now"
    else
      match parse(dateStr.value)
      case None => "Recently"
      case Some(p) => Render(IntendedBucket(p))
  }

  /** With the intended classification no label claims more time has passed than has. */
  lemma IntendedBucketNeverOverstates(p: Parsed)
    ensures match IntendedBucket(p)
      case JustNow => p.elapsed < 120
      case MinutesAgo(m) => m * 60 <= p.elapsed
      case OneHourAgo => 3600 <= p.elapsed
      case HoursAgo(h) => h * 3600 <= p.elapsed
      case DaysAgo(d) => d * SecondsPerDay <= p.elapsed
      case OnDate(_) => 30 * SecondsPerDay <= p.elapsed
  {
    if p.elapsed >= 0 {
      BucketBracketsElapsed(p);
    }
  }

  // ---------------------------------------------------------------------------
  // The /generate route

  /** The module-level FEEDS list, before any shuffle. */
  const FeedList: seq<FeedSource> := [
    FeedSource("naija news", "https://news.google.com/rss/search?q=when:24h+site:punchng.com&hl=en-NG&gl=NG&ceid=NG:en"),
    FeedSource("naija news", "https://news.google.com/rss/search?q=when:24h+site:vanguardngr.com&hl=en-NG&gl=NG&ceid=NG:en"),
    FeedSource("naija news", "https://news.google.com/rss/search?q=when:24h+site:premiumtimesng.com&hl=en-NG&gl=NG&ceid=NG:en"),
    FeedSource("naija news", "https://news.google.com/rss/search?q=when:24h+site:thenationonlineng.net&hl=en-NG&gl=NG&ceid=NG:en"),
    FeedSource("gossip", "https://news.google.com/rss/search?q=when:24h+site:lindaikejisblog.com&hl=en-NG&gl=NG&ceid=NG:en"),
    FeedSource("gossip", "https://news.google.com/rss/search?q=when:24h+site:bellanaija.com&hl=en-NG&gl=NG&ceid=NG:en"),
    FeedSource("football", "https://news.google.com/rss/search?q=when:24h+super+eagles+OR+premier+league+nigeria&hl=en-NG&gl=NG&ceid=NG:en"),
    FeedSource("viral", "https://news.google.com/rss/search?q=when:24h+site:legit.ng&hl=en-NG&gl=NG&ceid=NG:en"),
    FeedSource("entertainment", "https://news.google.com/rss/search?q=when:24h+bbnaija+OR+nollywood&hl=en-NG&gl=NG&ceid=NG:en"),
    FeedSource("tech", "https://news.google.com/rss/search?q=when:24h+site:techcabal.com&hl=en-NG&gl=NG&ceid=NG:en"),
    FeedSource("world", "https://feeds.bbci.co.uk/news/world/africa/rss.xml")
  ]

  const Prefixes: seq<string> := ["Na Wa O!", "Gist Alert:", "You Won't Believe:", "Naija Gist:", "Breaking:", "Omo!", "Chai!", "E Don Happen!"]

  /** `f.entries[:15]` */
  const EntryCap: nat := 15

  type PrefixIndex = i: nat | i < 8

  /**
   * What the route takes from libraries it cannot see: `random.choice(prefixes)` for
   * the k-th post added in the pass, BeautifulSoup's `get_text()`, and
   * `datetime.now().isoformat()` read while building the k-th post (the clock is read
   * afresh for every post).
   */
  datatype Externals = Externals(pick: nat -> PrefixIndex, strip: string -> string, nowIso: nat -> string)

  /** `getattr(e, "summary", "") or getattr(e, "description", "") or ""` */
  function Content(e: Entry): string {
    if e.summary.Some? && e.summary.value != "" then e.summary.value
    else e.description.GetOr("")
  }

  /**
   * The post the route builds for an entry with a new link: the extracted image, a
   * random prefix before the stripped title, the excerpt of the stripped content and
   * the published date or the current time; `None` when building it raised.
   */
  function BuildPost(ext: Externals, e: Entry, category: string, link: string, k: nat): (r: Option<Post>)
    ensures r.None? <==> ExtractImage(e).Raised? || e.title.None?
    ensures r.Some? ==> r.value.link == link && r.value.category == category
    ensures r.Some? ==> r.value.image == ExtractImage(e).url && r.value.excerpt == Excerpt(ext.strip(Content(e)))
    ensures r.Some? ==> exists i :: 0 <= i < |Prefixes| && r.value.title == Prefixes[i] + " " + ext.strip(e.title.value)
    ensures r.Some? ==>
      && |Ellipsis| <= |r.value.excerpt| <= ExcerptBudget + |Ellipsis|
      && r.value.excerpt[|r.value.excerpt| - |Ellipsis|..] == Ellipsis
      && StartsWith(ext.strip(Content(e)), r.value.excerpt[..|r.value.excerpt| - |Ellipsis|])
    ensures r.Some? ==> r.value.image != "" && (HttpUrl(r.value.image) || r.value.image == Placeholder)
    ensures r.Some? ==> r.value.pubDate == e.published.GetOr(ext.nowIso(k))
  {
    match ExtractImage(e)
    case Raised => None
    case Image(image) =>
      match e.title
      case None => None
      case Some(title) =>
        Some(Post(
          title := Prefixes[ext.pick(k)] + " " + ext.strip(title),
          excerpt := Excerpt(ext.strip(Content(e))),
          link := link,
          image := image,
          category := category,
          pubDate := e.published.GetOr(ext.nowIso(k))))
  }

  /** What the route does with one entry: skip a missing, empty or already stored link; else build and add. */
  function EntryStep(ext: Externals, e: Entry, category: string, known: set<string>, k: nat): (r: Ingestion.Step)
    ensures r.Skip? <==> e.link.None? || e.link.value == "" || e.link.value in known
    ensures r.Admit? ==>
      && e.link.Some? && e.link.value != "" && e.link.value !in known
      && r.post.link == e.link.value && r.post.category == category
    ensures r.Halt? <==> !r.Skip? && BuildPost(ext, e, category, e.link.value, k).None?
    ensures r.Admit? ==> BuildPost(ext, e, category, e.link.value, k) == Some(r.post)
  {
    if e.link.None? || e.link.value == "" || e.link.value in known then Skip
    else
      match BuildPost(ext, e, category, e.link.value, k)
      case None => Halt
      case Some(p) => Admit(p)
  }

  function Stepper(ext: Externals): Ingestion.Stepper {
    (e: Entry, category: string, known: set<string>, k: nat) => EntryStep(ext, e, category, known, k)
  }

  /** The route's step admits only new links, and its skips survive a fuller store. */
  lemma StepperObligations(ext: Externals)
    ensures AdmitsOnlyNew(Stepper(ext))
    ensures SkipIsStable(Stepper(ext))
    ensures AdmittedLinkSettles(Stepper(ext))
  {
  }

  /**
   * What every post the route adds looks like: an excerpt of at most 340 characters
   * followed by "...", a title made of one of the prefixes and a space, and an image
   * that is an http URL or the placeholder.
   */
  predicate PostShape(p: Post) {
    && |Ellipsis| <= |p.excerpt| <= ExcerptBudget + |Ellipsis|
    && p.excerpt[|p.excerpt| - |Ellipsis|..] == Ellipsis
    && (exists i :: 0 <= i < |Prefixes| && StartsWith(p.title, Prefixes[i] + " "))
    && p.image != "" && (HttpUrl(p.image) || p.image == Placeholder)
  }

  /** Every post the route's step admits has the post shape. */
  lemma StepperAdmitsShapedPosts(ext: Externals)
    ensures AdmitsOnly(Stepper(ext), PostShape)
  {
    forall e, category, known, k | Stepper(ext)(e, category, known, k).Admit?
      ensures PostShape(Stepper(ext)(e, category, known, k).post)
    {
      var p := Stepper(ext)(e, category, known, k).post;
      assert BuildPost(ext, e, category, e.link.value, k) == Some(p);
      var i :| 0 <= i < |Prefixes| && p.title == Prefixes[i] + " " + ext.strip(e.title.value);
      assert p.title[..|Prefixes[i] + " "|] == Prefixes[i] + " ";
    }
  }

  /**
   * Every post a `/generate` pass adds has the post shape, a link that was not stored
   * before and is not shared with another added post, and the category of one of the feeds.
   */
  lemma GeneratedPostsAreWellFormed(ext: Externals, fetch: Fetcher, order: seq<FeedSource>, known: set<string>)
    ensures var r := RunPass(Stepper(ext), fetch, EntryCap, order, Start(known));
      && (forall i :: 0 <= i < |r.added| ==> PostShape(r.added[i]))
      && UniqueLinks(r.added)
      && (forall i :: 0 <= i < |r.added| ==> r.added[i].link !in known && r.added[i].category in CategoriesOf(order))
  {
    StepperAdmitsShapedPosts(ext);
    RunPassAddsOnly(Stepper(ext), PostShape, fetch, EntryCap, order, Start(known));
    StepperObligations(ext);
    RunPassAddsUniqueNewLinks(Stepper(ext), fetch, EntryCap, order, known);
  }

  /** Over any order of as many feeds as the route's FEEDS list (a shuffle keeps the length), a pass adds at most 15 * 11 = 165 posts. */
  lemma GenerateBoundOnFeedList(ext: Externals, fetch: Fetcher, order: seq<FeedSource>, known: set<string>)
    requires |order| == |FeedList|
    ensures |RunPass(Stepper(ext), fetch, EntryCap, order, Start(known)).added| <= 165
  {
    RunPassBound(Stepper(ext), fetch, EntryCap, order, Start(known));
  }

  /**
   * Calling `/generate` again over the same feed contents, after a call in which no feed
   * was ended by an exception, adds nothing, whatever the new shuffle and random prefixes.
   */
  lemma RegenerateAddsNothing(ext: Externals, ext2: Externals, fetch: Fetcher, order: seq<FeedSource>, order2: seq<FeedSource>, known: set<string>)
    requires NoHalts(Stepper(ext), fetch, EntryCap, order, Start(known))
    requires multiset(order2) == multiset(order)
    ensures var first := RunPass(Stepper(ext), fetch, EntryCap, order, Start(known));
      RunPass(Stepper(ext2), fetch, EntryCap, order2, Start(first.known)) == Start(first.known)
  {
    StepperObligations(ext);
    assert SkipsAtLeast(Stepper(ext), Stepper(ext2)) by {
      forall e, category, known, k, k' | Stepper(ext)(e, category, known, k).Skip?
        ensures Stepper(ext2)(e, category, known, k').Skip?
      {
        assert EntryStep(ext, e, category, known, k).Skip?;
      }
    }
    ReshuffledRerunAddsNothing(Stepper(ext), Stepper(ext2), fetch, EntryCap, order, order2, known);
  }

  /**
   * The entry loop inside the per-feed `try` of `generate()`: the first 15 entries of a feed,
   * stopping at the first exception. `added` counts the posts added so far in the pass.
   */
  method IngestFeed(db: Session, category: string, entries: seq<Entry>, ext: Externals, ghost st: PassState, added: nat)
    returns (added': nat, ghost st': PassState, ghost newPosts: seq<Post>)
    requires db.Valid() && db.Links() == st.known && added == |st.added|
    modifies db
    ensures st' == FeedPass(Stepper(ext), category, entries, st).state
    ensures db.Valid() && db.Links() == st'.known && added' == |st'.added|
    ensures st'.added == st.added + newPosts
    ensures db.rows == old(db.rows) && db.pending == old(db.pending) + newPosts
  {
    added', st', newPosts := added, st, [];
    var j := 0;
    while j < |entries|
      invariant 0 <= j <= |entries|
      invariant FeedPass(Stepper(ext), category, entries[..j], st) == FeedOutcome(st', false)
      invariant db.Valid() && db.Links() == st'.known && added' == |st'.added|
      invariant st'.added == st.added + newPosts
      invariant db.rows == old(db.rows) && db.pending == old(db.pending) + newPosts
    {
      var e := entries[j];
      FeedPassNext(Stepper(ext), category, entries, j, st);
      ghost var outcome := EntryStep(ext, e, category, st'.known, added');
      assert Stepper(ext)(e, category, st'.known, added') == outcome;
      if e.link.Some? && e.link.value != "" {
        var stored := db.FindByLink(e.link.value);
        if stored.None? {
          var built := BuildPost(ext, e, category, e.link.value, added');
          assert outcome == if built.None? then Halt else Admit(built.value);
          if built.None? {
            // the exception leaves this feed; the outer `except: continue` moves on
            HaltEndsFeed(Stepper(ext), category, entries, j, st);
            return;
          }
          db.Add(built.value);
          added' := added' + 1;
          st' := PassState(st'.known + {built.value.link}, st'.added + [built.value]);
          newPosts := newPosts + [built.value];
        }
      }
      j := j + 1;
    }
    assert entries[..j] == entries;
  }

  /**
   * One iteration of the loop over the feeds in `generate()`: fetch the feed and run its
   * first 15 entries; a fetch that raises is caught and the feed contributes nothing.
   */
  method IngestSource(db: Session, source: FeedSource, fetch: Fetcher, ext: Externals, ghost st: PassState, added: nat)
    returns (added': nat, ghost st': PassState, ghost newPosts: seq<Post>)
    requires db.Valid() && db.Links() == st.known && added == |st.added|
    modifies db
    ensures st' == FeedTurn(Stepper(ext), fetch, EntryCap, source, st)
    ensures db.Valid() && db.Links() == st'.known && added' == |st'.added|
    ensures st'.added == st.added + newPosts
    ensures db.rows == old(db.rows) && db.pending == old(db.pending) + newPosts
  {
    var parsed := fetch(source.url);
    if parsed.Some? {
      added', st', newPosts := IngestFeed(db, source.category, Take(parsed.value, EntryCap), ext, st, added);
    } else {
      added', st', newPosts := added, st, [];
    }
  }

  /**
   * `generate()`: one pass over `order`, the FEEDS list `feeds` after `random.shuffle`
   * (normally `FeedList`), adding each new post to the session and committing only when
   * something was added.
   */
  method Generate(db: Session, feeds: seq<FeedSource>, order: seq<FeedSource>, fetch: Fetcher, ext: Externals)
    returns (added: nat, message: string)
    requires db.Valid()
    requires multiset(order) == multiset(feeds)
    modifies db
    ensures var pass := RunPass(Stepper(ext), fetch, EntryCap, order, Start(old(db.Links())));
      added == |pass.added|
      && if added > 0 then db.rows == old(db.rows) + old(db.pending) + pass.added && db.pending == []
         else db.rows == old(db.rows) && db.pending == old(db.pending)
    ensures db.Valid()
    ensures added <= EntryCap * |feeds|
    ensures message == "NaijaBuzz UPDATED! Added " + NatToString(added) + " fresh stories!"
  {
    added := 0;
    ghost var start := Start(db.Links());
    ghost var st := start;
    for i := 0 to |order|
      invariant db.Valid()
      invariant st == RunPass(Stepper(ext), fetch, EntryCap, order[..i], start)
      invariant db.rows == old(db.rows) && db.pending == old(db.pending) + st.added
      invariant db.Links() == st.known
      invariant added == |st.added|
    {
      RunPassNext(Stepper(ext), fetch, EntryCap, order, i, start);
      ghost var newPosts;
      added, st, newPosts := IngestSource(db, order[i], fetch, ext, st, added);
    }
    assert order[..|order|] == order;
    RunPassBound(Stepper(ext), fetch, EntryCap, order, start);
    assert |order| == |feeds| by {
      assert |multiset(order)| == |multiset(feeds)|;
    }
    if added > 0 {
      db.Commit();
    }
    message := "NaijaBuzz UPDATED! Added " + NatToString(added) + " fresh stories!";
  }
}
