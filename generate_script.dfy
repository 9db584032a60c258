/**
 * generate.py: the stand-alone fetcher, with its own `extract_image` (any non-empty
 * URL is accepted) and its `run` ingestion pass (20 entries per feed).
 */
module GenerateScript {
  import opened Wrappers
  import opened Text
  import opened Feeds
  import opened Store
  import opened Ingestion

  // ---------------------------------------------------------------------------
  // extract_image

  /** Python truthiness of a string: `if url:` */
  predicate NonEmpty(url: string) {
    url != ""
  }

  /**
   * The first non-empty `media_content` URL, else the first non-empty enclosure URL,
   * else the placeholder; no scheme check. An enclosure without `url` met first raises.
   */
  function ExtractImage(e: Entry): (r: ImageResult)
    ensures forall i :: FirstStopAt(MediaOf(e), NonEmpty, false, i) ==> r == Image(MediaOf(e)[i].value)
    ensures NeverStops(MediaOf(e), NonEmpty, false) ==>
      forall i :: FirstStopAt(EnclosuresOf(e), NonEmpty, true, i) ==>
        r == if EnclosuresOf(e)[i].None? then Raised else Image(EnclosuresOf(e)[i].value)
    ensures NeverStops(MediaOf(e), NonEmpty, false) && NeverStops(EnclosuresOf(e), NonEmpty, true) ==>
      r == Image(Placeholder)
    ensures r.Image? ==> r.url != ""
  {
    ChooseImage(e, NonEmpty)
  }

  // ---------------------------------------------------------------------------
  // run

  /** The module-level FEEDS list, before any shuffle. */
  const FeedList: seq<FeedSource> := [
    FeedSource("naija news", "https://news.google.com/rss/search?q=when:24h+site:punchng.com&hl=en-NG&gl=NG&ceid=NG:en"),
    FeedSource("naija news", "https://news.google.com/rss/search?q=when:24h+site:vanguardngr.com&hl=en-NG&gl=NG&ceid=NG:en"),
    FeedSource("naija news", "https://news.google.com/rss/search?q=when:24h+site:premiumtimesng.com&hl=en-NG&gl=NG&ceid=NG:en"),
    FeedSource("naija news", "https://news.google.com/rss/search?q=when:24h+site:dailypost.ng&hl=en-NG&gl=NG&ceid=NG:en"),
    FeedSource("gossip", "https://news.google.com/rss/search?q=when:24h+site:lindaikejisblog.com&hl=en-NG&gl=NG&ceid=NG:en"),
    FeedSource("gossip", "https://news.google.com/rss/search?q=when:24h+site:bellanaija.com&hl=en-NG&gl=NG&ceid=NG:en"),
    FeedSource("football", "https://news.google.com/rss/search?q=when:24h+super+eagles+OR+premier+league+nigeria&hl=en-NG&gl=NG&ceid=NG:en"),
    FeedSource("viral", "https://news.google.com/rss/search?q=when:24h+site:legit.ng&hl=en-NG&gl=NG&ceid=NG:en"),
    FeedSource("entertainment", "https://news.google.com/rss/search?q=when:24h+bbnaija+OR+wizard+OR+davido&hl=en-NG&gl=NG&ceid=NG:en"),
    FeedSource("music", "https://news.google.com/rss/search?q=when:24h+afrobeats+OR+burna+OR+wizard+OR+rema&hl=en-NG&gl=NG&ceid=NG:en"),
    FeedSource("tech", "https://news.google.com/rss/search?q=when:24h+site:techcabal.com&hl=en-NG&gl=NG&ceid=NG:en"),
    FeedSource("world", "https://feeds.bbci.co.uk/news/world/africa/rss.xml")
  ]

  const Prefixes: seq<string> := ["Na Wa O!", "Gist Alert:", "You Won't Believe:", "Naija Gist:", "Breaking:", "Omo!", "Chai!", "E Don Happen!", "This One Loud!"]

  /** `f.entries[:20]` */
  const EntryCap: nat := 20

  type PrefixIndex = i: nat | i < 9

  /**
   * What `run` takes from libraries it cannot see: `random.choice(prefixes)` for the
   * k-th post added in the pass, BeautifulSoup's `get_text()`, and
   * `datetime.now().isoformat()` read while building the k-th post (the clock is read
   * afresh for every post).
   */
  datatype Externals = Externals(pick: nat -> PrefixIndex, strip: string -> string, nowIso: nat -> string)

  /**
   * The post the script builds for an entry with a new link: the extracted image, a
   * random prefix before the stripped title, the excerpt of the stripped summary and
   * the published date or the current time; `None` when building it raised.
   */
  function BuildPost(ext: Externals, e: Entry, category: string, link: string, k: nat): (r: Option<Post>)
    ensures r.None? <==> ExtractImage(e).Raised? || e.title.None? || e.summary.None?
    ensures r.Some? ==> r.value.link == link && r.value.category == category
    ensures r.Some? ==> r.value.image == ExtractImage(e).url && r.value.excerpt == Excerpt(ext.strip(e.summary.value))
    ensures r.Some? ==> exists i :: 0 <= i < |Prefixes| && r.value.title == Prefixes[i] + " " + ext.strip(e.title.value)
    ensures r.Some? ==>
      && |Ellipsis| <= |r.value.excerpt| <= ExcerptBudget + |Ellipsis|
      && r.value.excerpt[|r.value.excerpt| - |Ellipsis|..] == Ellipsis
      && StartsWith(ext.strip(e.summary.value), r.value.excerpt[..|r.value.excerpt| - |Ellipsis|])
      && (|ext.strip(e.summary.value)| >= ExcerptBudget ==> |r.value.excerpt| == ExcerptBudget + |Ellipsis|)
    ensures r.Some? ==> r.value.image != ""
    ensures r.Some? && e.published.Some? ==> r.value.pubDate == e.published.value
    ensures r.Some? && e.published.None? ==> r.value.pubDate == ext.nowIso(k)
  {
    match ExtractImage(e)
    case Raised => None
    case Image(image) =>
      match (e.title, e.summary)
      case (Some(title), Some(summary)) =>
        Some(Post(
          title := Prefixes[ext.pick(k)] + " " + ext.strip(title),
          excerpt := Excerpt(ext.strip(summary)),
          link := link,
          image := image,
          category := category,
          pubDate := e.published.GetOr(ext.nowIso(k))))
      case _ => None
  }

  /**
   * What the script does with one entry: a missing `link` attribute raises, an empty
   * or already stored link is skipped, anything else is built and added.
   */
  function EntryStep(ext: Externals, e: Entry, category: string, known: set<string>, k: nat): (r: Ingestion.Step)
    ensures r.Skip? <==> e.link.Some? && (e.link.value == "" || e.link.value in known)
    ensures e.link.None? ==> r.Halt?
    ensures r.Admit? ==>
      && e.link.Some? && e.link.value != "" && e.link.value !in known
      && r.post.link == e.link.value && r.post.category == category
    ensures r.Halt? <==> e.link.None? || (!r.Skip? && BuildPost(ext, e, category, e.link.value, k).None?)
    ensures r.Admit? ==> BuildPost(ext, e, category, e.link.value, k) == Some(r.post)
  {
    if e.link.None? then Halt
    else if e.link.value == "" || e.link.value in known then Skip
    else
      match BuildPost(ext, e, category, e.link.value, k)
      case None => Halt
      case Some(p) => Admit(p)
  }

  function Stepper(ext: Externals): Ingestion.Stepper {
    (e: Entry, category: string, known: set<string>, k: nat) => EntryStep(ext, e, category, known, k)
  }

  /** The script's step admits only new links, and its skips survive a fuller store. */
  lemma StepperObligations(ext: Externals)
    ensures AdmitsOnlyNew(Stepper(ext))
    ensures SkipIsStable(Stepper(ext))
    ensures AdmittedLinkSettles(Stepper(ext))
  {
  }

  /**
   * What every post the script adds looks like: an excerpt of at most 340 characters
   * followed by "...", a title made of one of the prefixes and a space, and a non-empty image.
   */
  predicate PostShape(p: Post) {
    && |Ellipsis| <= |p.excerpt| <= ExcerptBudget + |Ellipsis|
    && p.excerpt[|p.excerpt| - |Ellipsis|..] == Ellipsis
    && (exists i :: 0 <= i < |Prefixes| && StartsWith(p.title, Prefixes[i] + " "))
    && p.image != ""
  }

  /** Every post the script's step admits has the post shape. */
  lemma StepperAdmitsShapedPosts(ext: Externals)
    ensures AdmitsOnly(Stepper(ext), PostShape)
  {
    forall e, category, known, k | Stepper(ext)(e, category, known, k).Admit?
      ensures PostShape(Stepper(ext)(e, category, known, k).post)
    {
      var p := Stepper(ext)(e, category, known, k).post;
      assert BuildPost(ext, e, category, e.link.value, k) == Some(p);
      var i :| 0 <= i < |Prefixes| && p.title == Prefixes[i] + " " + ext.strip(e.title.value);
      assert p.title[..|Prefixes[i] + " "|] == Prefixes[i] + " ";
    }
  }

  /**
   * Every post a `run()` pass adds has the post shape, a link that was not stored before
   * and is not shared with another added post, and the category of one of the feeds.
   */
  lemma RunPostsAreWellFormed(ext: Externals, fetch: Fetcher, order: seq<FeedSource>, known: set<string>)
    ensures var r := RunPass(Stepper(ext), fetch, EntryCap, order, Start(known));
      && (forall i :: 0 <= i < |r.added| ==> PostShape(r.added[i]))
      && UniqueLinks(r.added)
      && (forall i :: 0 <= i < |r.added| ==> r.added[i].link !in known && r.added[i].category in CategoriesOf(order))
  {
    StepperAdmitsShapedPosts(ext);
    RunPassAddsOnly(Stepper(ext), PostShape, fetch, EntryCap, order, Start(known));
    StepperObligations(ext);
    RunPassAddsUniqueNewLinks(Stepper(ext), fetch, EntryCap, order, known);
  }

  /** Over any order of as many feeds as the script's FEEDS list (a shuffle keeps the length), a pass adds at most 20 * 12 = 240 posts. */
  lemma RunBoundOnFeedList(ext: Externals, fetch: Fetcher, order: seq<FeedSource>, known: set<string>)
    requires |order| == |FeedList|
    ensures |RunPass(Stepper(ext), fetch, EntryCap, order, Start(known)).added| <= 240
  {
    RunPassBound(Stepper(ext), fetch, EntryCap, order, Start(known));
  }

  /**
   * Running the script again over the same feed contents, after a run in which no feed
   * was ended by an exception, adds nothing, whatever the new shuffle and random prefixes.
   */
  lemma RerunScriptAddsNothing(ext: Externals, ext2: Externals, fetch: Fetcher, order: seq<FeedSource>, order2: seq<FeedSource>, known: set<string>)
    requires NoHalts(Stepper(ext), fetch, EntryCap, order, Start(known))
    requires multiset(order2) == multiset(order)
    ensures var first := RunPass(Stepper(ext), fetch, EntryCap, order, Start(known));
      RunPass(Stepper(ext2), fetch, EntryCap, order2, Start(first.known)) == Start(first.known)
  {
    StepperObligations(ext);
    assert SkipsAtLeast(Stepper(ext), Stepper(ext2)) by {
      forall e, category, known, k, k' | Stepper(ext)(e, category, known, k).Skip?
        ensures Stepper(ext2)(e, category, known, k').Skip?
      {
        assert EntryStep(ext, e, category, known, k).Skip?;
      }
    }
    ReshuffledRerunAddsNothing(Stepper(ext), Stepper(ext2), fetch, EntryCap, order, order2, known);
  }

  /**
   * The entry loop inside the per-feed `try` of `run()`: the first 20 entries of a feed,
   * stopping at the first exception. `added` counts the posts added so far in the pass.
   */
  method IngestFeed(db: Session, category: string, entries: seq<Entry>, ext: Externals, ghost st: PassState, added: nat)
    returns (added': nat, ghost st': PassState, ghost newPosts: seq<Post>)
    requires db.Valid() && db.Links() == st.known && added == |st.added|
    modifies db
    ensures st' == FeedPass(Stepper(ext), category, entries, st).state
    ensures db.Valid() && db.Links() == st'.known && added' == |st'.added|
    ensures st'.added == st.added + newPosts
    ensures db.rows == old(db.rows) && db.pending == old(db.pending) + newPosts
  {
    added', st', newPosts := added, st, [];
    var j := 0;
    while j < |entries|
      invariant 0 <= j <= |entries|
      invariant FeedPass(Stepper(ext), category, entries[..j], st) == FeedOutcome(st', false)
      invariant db.Valid() && db.Links() == st'.known && added' == |st'.added|
      invariant st'.added == st.added + newPosts
      invariant db.rows == old(db.rows) && db.pending == old(db.pending) + newPosts
    {
      var e := entries[j];
      FeedPassNext(Stepper(ext), category, entries, j, st);
      ghost var outcome := EntryStep(ext, e, category, st'.known, added');
      assert Stepper(ext)(e, category, st'.known, added') == outcome;
      if e.link.None? {
        // `e.link` raises AttributeError; the outer `except: continue` moves on
        HaltEndsFeed(Stepper(ext), category, entries, j, st);
        return;
      }
      if e.link.value != "" {
        var stored := db.FindByLink(e.link.value);
        if stored.None? {
          var built := BuildPost(ext, e, category, e.link.value, added');
          assert outcome == if built.None? then Halt else Admit(built.value);
          if built.None? {
            HaltEndsFeed(Stepper(ext), category, entries, j, st);
            return;
          }
          db.Add(built.value);
          added' := added' + 1;
          st' := PassState(st'.known + {built.value.link}, st'.added + [built.value]);
          newPosts := newPosts + [built.value];
        }
      }
      j := j + 1;
    }
    assert entries[..j] == entries;
  }

  /**
   * One iteration of the loop over the feeds in `run()`: fetch the feed and run its
   * first 20 entries; a fetch that raises is caught and the feed contributes nothing.
   */
  method IngestSource(db: Session, source: FeedSource, fetch: Fetcher, ext: Externals, ghost st: PassState, added: nat)
    returns (added': nat, ghost st': PassState, ghost newPosts: seq<Post>)
    requires db.Valid() && db.Links() == st.known && added == |st.added|
    modifies db
    ensures st' == FeedTurn(Stepper(ext), fetch, EntryCap, source, st)
    ensures db.Valid() && db.Links() == st'.known && added' == |st'.added|
    ensures st'.added == st.added + newPosts
    ensures db.rows == old(db.rows) && db.pending == old(db.pending) + newPosts
  {
    var parsed := fetch(source.url);
    if parsed.Some? {
      added', st', newPosts := IngestFeed(db, source.category, Take(parsed.value, EntryCap), ext, st, added);
    } else {
      added', st', newPosts := added, st, [];
    }
  }

  /**
   * `run()`: one pass over `order`, the FEEDS list `feeds` after `random.shuffle`
   * (normally `FeedList`), committing only when something was added. `message` is the
   * line the script prints.
   */
  method Run(db: Session, feeds: seq<FeedSource>, order: seq<FeedSource>, fetch: Fetcher, ext: Externals)
    returns (added: nat, message: string)
    requires db.Valid()
    requires multiset(order) == multiset(feeds)
    modifies db
    ensures var pass := RunPass(Stepper(ext), fetch, EntryCap, order, Start(old(db.Links())));
      added == |pass.added|
      && if added > 0 then db.rows == old(db.rows) + old(db.pending) + pass.added && db.pending == []
         else db.rows == old(db.rows) && db.pending == old(db.pending)
    ensures db.Valid()
    ensures added <= EntryCap * |feeds|
    ensures message == "NaijaBuzz UPDATED! Added " + NatToString(added) + " fresh stories!"
  {
    added := 0;
    ghost var start := Start(db.Links());
    ghost var st := start;
    for i := 0 to |order|
      invariant db.Valid()
      invariant st == RunPass(Stepper(ext), fetch, EntryCap, order[..i], start)
      invariant db.rows == old(db.rows) && db.pending == old(db.pending) + st.added
      invariant db.Links() == st.known
      invariant added == |st.added|
    {
      RunPassNext(Stepper(ext), fetch, EntryCap, order, i, start);
      ghost var newPosts;
      added, st, newPosts := IngestSource(db, order[i], fetch, ext, st, added);
    }
    assert order[..|order|] == order;
    RunPassBound(Stepper(ext), fetch, EntryCap, order, start);
    assert |order| == |feeds| by {
      assert |multiset(order)| == |multiset(feeds)|;
    }
    if added > 0 {
      db.Commit();
    }
    message := "NaijaBuzz UPDATED! Added " + NatToString(added) + " fresh stories!";
  }
}
