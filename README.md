# NaijaBuzz ingestion core in Dafny

NaijaBuzz is a Flask news aggregator for Nigerian news. It pulls RSS feeds,
turns each new entry into a `Post` row and shows the rows with relative
timestamps. There are two copies of the ingestion code: the `/generate` route
in `main.py` and the stand-alone `run()` in `generate.py`. This project
models the logic behind them:

- the start-up rewrite of the database URI (`postgres://` becomes
  `postgresql://`, with the SQLite default);
- both `extract_image` fallback chains (media content, then enclosures, then a
  placeholder);
- the `time_ago` template filter;
- both ingestion passes. Each pass takes feeds in a shuffled order and the
  first 15 or 20 entries of each feed. It skips empty and already-stored
  links. An entry without a `link` attribute is skipped by `main.py`, but in
  `generate.py` reading it raises and abandons the rest of the feed. It builds
  a post for every new link and adds it to the session. An exception abandons
  only the rest of that feed. The session is committed only
  when something was added.

Modules:

- `Wrappers` holds `Option`.
- `Text` holds prefix tests, `str.replace(..., 1)`, slicing and decimal
  rendering.
- `Feeds` holds feed entries, posts, the shared image chain, the excerpt rule
  and link sets.
- `Store` holds the `Session` class. Its committed `rows` and `pending` posts
  are what a query sees through autoflush.
- `Ingestion` holds the pass shared by both copies. It is a fold over a
  per-entry step, with the lemmas about counting, de-duplication, feed
  isolation and re-running.
- `MainApp` models `main.py`.
- `GenerateScript` models `generate.py`.

The loops are imperative Dafny:

- `Session.FindByLink` scans the table.
- `IngestSource` is one turn of the loop over the feeds, and `IngestFeed` is the inner loop over that feed's entries.
- `Generate` and `Run` are the outer loops over the feeds.

Each loop is proved against the pure pass functions `FeedPass` and `RunPass`,
and the properties of the pass are lemmas about those functions.

Library calls become parameters:

- `feedparser.parse` is `fetch` (`None` when it raises).
- BeautifulSoup's `get_text()` is `strip`.
- `random.choice(prefixes)` is `pick`, indexed by how many posts the pass has
  added so far.
- `datetime.now().isoformat()` is `nowIso`, indexed like `pick`: the clock is
  read again for every post built.
- `dateutil` parsing followed by the subtraction from `datetime.now()` is
  `parse` (`None` when either raises).
- The shuffled FEEDS list is the `order` argument. It must be a permutation of
  `feeds`, which is normally `FeedList`.

## Model

| member | source | states |
|---|---|---|
| MainApp.RewriteScheme | main.py:12-13 | A URI starting with `postgres://` becomes `postgresql://` followed by the unchanged remainder. Any other URI is returned as is. No result starts with `postgres://`. |
| MainApp.RewriteSchemeIdempotent | main.py:12-13 | Rewriting an already rewritten URI changes nothing. |
| MainApp.DatabaseUri | main.py:11-13 | An absent or empty `DATABASE_URL` gives `sqlite:///posts.db`. Otherwise the value is rewritten or passed through as above. The URI is never empty and never keeps the legacy scheme. |
| Text.ReplaceFirstAtStart | main.py:13 | When the string starts with the pattern, `replace(pat, rep, 1)` swaps exactly that prefix. |
| Text.IndexOf | main.py:13 | The search behind `replace` finds the first occurrence of the pattern, or reports that there is none. |
| Feeds.FirstStop | main.py:55-62 | The `for ...: if ...: return` scan leaves the list at the first position where it stops, or never stops. |
| Feeds.ChooseImage | main.py:52-63 | The first accepted media URL wins. Only if there is none, the first accepted enclosure URL wins; an enclosure without `url` met earlier raises. Otherwise the result is the placeholder. A returned URL is accepted or is the placeholder. |
| MainApp.ExtractImage | main.py:52-63 | The same chain with "starts with `http`" as the test. A returned image is never empty and either starts with `http` or is the placeholder. |
| GenerateScript.ExtractImage | generate.py:26-34 | The same chain with "non-empty" as the test and no scheme check. A returned image is never empty. |
| MainApp.TimeAgo | main.py:66-79 | An absent or empty date gives "Just now". A date that cannot be parsed or subtracted gives "Recently". |
| MainApp.TimeAgoOfPastDate | main.py:72-77 | For a past date: 30 days or more gives the month-day label; 1 to 29 days gives "Nd ago"; 2 to 23 hours gives "Nh ago"; one hour gives "1h ago"; 2 to 59 minutes gives "Nm ago"; under two minutes gives "Just now". The number in each label is read off the elapsed time. |
| MainApp.BucketBracketsElapsed | main.py:72-77 | For a past date, every label brackets the elapsed time to within one of its units. |
| MainApp.FutureDateReadsAsHoursAgo | main.py:71-74 | A date up to 22 hours in the future reads as "Nh ago" with N ≥ 2. One hour ahead reads "23h ago". |
| MainApp.IntendedBucket | main.py:72-77 | Definition, without a contract of its own: the corrected classification. A date that is not in the past is "Just now"; past dates are classified as the source does. `IntendedBucketNeverOverstates` and `IntendedTimeAgo` state its properties. |
| MainApp.IntendedTimeAgo | main.py:66-79 | `time_ago` with the corrected classification. It agrees with the source on every past date. |
| MainApp.IntendedBucketNeverOverstates | main.py:72-77 | With the corrected classification, no label claims more time has passed than has. |
| Feeds.Excerpt | main.py:106 | `text[:340] + "..."` always ends in "..." and is at most 343 long. It keeps a prefix of the text: exactly 340 characters of a long text and all of a short one. |
| Text.Take | main.py:100 | `xs[:n]` is a prefix of at most `n` elements. It keeps exactly `n` when there are enough, and a list of at most `n` elements whole. |
| Text.NatToString | main.py:113 | `f"{added}"` renders non-empty decimal digits with no leading zero. |
| Text.DecimalRoundTrip | main.py:73-76 | Parsing the rendered count gives back the count. |
| MainApp.BuildPost | main.py:103-109 | A post is built unless `extract_image` or the title lookup raises. The post carries the entry's link and the feed's category. Its image is exactly `ExtractImage(e)`: non-empty, and either an http URL or the placeholder. Its title is a fixed prefix, a space and the stripped title. Its excerpt is exactly `Excerpt` of the stripped content: the summary when it is non-empty, else the description, else "". Its pub_date is `published`, or else the clock read while building this post. |
| MainApp.EntryStep | main.py:101-110 | An entry is skipped exactly when its link is missing, empty or already stored. The feed is abandoned exactly when building the post raises. Otherwise the post `BuildPost` builds is admitted; it has a new, non-empty link and the feed's category. |
| MainApp.StepperAdmitsShapedPosts | main.py:103-109 | Every post the route's step admits satisfies `PostShape`: an excerpt of at most 343 characters ending in "...", a title starting with one of the prefixes and a space, and an image that is an http URL or the placeholder. |
| MainApp.GeneratedPostsAreWellFormed | main.py:97-110 | Every post a `/generate` pass adds satisfies `PostShape`. The added posts have pairwise distinct links, none of them already stored, and each carries the category of one of the feeds. |
| MainApp.GenerateBoundOnFeedList | main.py:37-49 | Over any feed order as long as the route's 11-feed FEEDS list, a pass adds at most 165 posts. Any shuffle of that list qualifies. |
| MainApp.RegenerateAddsNothing | main.py:92-113 | Suppose a call to `/generate` ended no feed early with an exception. Then a second call over the same feed contents adds nothing, whatever its new shuffle and random prefixes. |
| MainApp.StepperObligations | main.py:101-110 | The route's step admits only links a query cannot find, and its skips stay skips once more links are stored. |
| MainApp.IngestSource | main.py:98-111 | One turn of the feed loop leaves the session and counter matching `FeedTurn`: a fetch that raises adds nothing, and otherwise the feed's first 15 entries are run. The new posts are appended to the pending posts. |
| MainApp.IngestFeed | main.py:100-110 | The entry loop of one feed leaves the session and counter matching `FeedPass`. It stops at the entry that raised, appends exactly the new posts to the pending posts and keeps links unique. |
| MainApp.Generate | main.py:92-113 | `added` is the number of posts `RunPass` adds over the shuffled order. Those posts are committed after everything pending if and only if `added > 0`; otherwise the session is unchanged. Links stay unique, `added ≤ 15 × len(FEEDS)`, and the message reports `added`. |
| GenerateScript.BuildPost | generate.py:47-52 | A post is built unless `extract_image`, the title lookup or the summary lookup raises. It has the same link, category and title facts as the route. Its image is exactly `ExtractImage(e)`, which is non-empty. Its excerpt is exactly `Excerpt` of the stripped summary. Its pub_date is `published` when present, otherwise the clock read while building this post. |
| GenerateScript.EntryStep | generate.py:45-53 | A missing `link` attribute raises and ends the feed. An empty or stored link is skipped. For a new link, the feed ends exactly when building raises; otherwise the post `BuildPost` builds is admitted. |
| GenerateScript.StepperAdmitsShapedPosts | generate.py:47-52 | Every post the script's step admits satisfies `PostShape`: an excerpt of at most 343 characters ending in "...", a title starting with one of the prefixes and a space, and a non-empty image. |
| GenerateScript.RunPostsAreWellFormed | generate.py:41-53 | Every post a `run()` pass adds satisfies `PostShape`. The added posts have pairwise distinct links, none of them already stored, and each carries the category of one of the feeds. |
| GenerateScript.RunBoundOnFeedList | generate.py:10-24 | Over any feed order as long as the script's 12-feed FEEDS list, a pass adds at most 240 posts. Any shuffle of that list qualifies. |
| GenerateScript.RerunScriptAddsNothing | generate.py:36-56 | Suppose a run ended no feed early with an exception. Then a second run over the same feed contents adds nothing, whatever its new shuffle and random prefixes. |
| GenerateScript.StepperObligations | generate.py:45-53 | The script's step admits only new links, and its skips stay skips once more links are stored. |
| GenerateScript.IngestSource | generate.py:42-54 | One turn of the feed loop leaves the session and counter matching `FeedTurn`: a fetch that raises adds nothing, and otherwise the feed's first 20 entries are run. |
| GenerateScript.IngestFeed | generate.py:44-53 | The entry loop of one feed leaves the session and counter matching `FeedPass`. It stops at the first exception and keeps links unique. |
| GenerateScript.Run | generate.py:36-56 | `added` is the number of posts `RunPass` adds. The commit happens if and only if `added > 0`. Links stay unique, `added ≤ 20 × len(FEEDS)`, and the printed message reports `added`. |
| Store.Session.constructor | main.py:18-25 | A session over committed rows with unique links starts with nothing pending. |
| Store.Session.FindByLink | main.py:101 | The query finds a post with that link among the committed and pending posts exactly when the link is stored. |
| Store.Session.Add | main.py:108-109 | Adding a post with a new link appends it to the pending posts. Links stay unique, and the stored links grow by its link. |
| Store.Session.Commit | main.py:112 | The pending posts become rows in order, and the stored links are unchanged. |
| Feeds.LinksOfAppend | main.py:108-109 | Adding a post adds exactly its link to the set of stored links. |
| Feeds.LinksOfConcat | main.py:101 | The links a query sees are those of the committed rows plus those of the pending posts. |
| Feeds.UniqueLinksAppend | main.py:22 | Appending a post whose link is new keeps the `unique=True` link column satisfied. |
| Ingestion.FeedPassExtends | main.py:100-110 | A feed only appends to the posts added so far, at most one per examined entry, and never forgets a link. |
| Ingestion.FeedTurnExtends | main.py:98-111 | One feed adds at most `cap` posts, and nothing when fetching it raised. |
| Ingestion.RunPassExtends | main.py:97-111 | A pass only appends: posts added earlier keep their places. |
| Ingestion.RunPassBound | main.py:95-110 | A pass adds at most `cap × len(FEEDS)` posts. |
| Ingestion.FeedPassKeepsFresh | main.py:101-102 | One feed's added posts have new, distinct links and carry its category. |
| Ingestion.RunPassKeepsFresh | main.py:101-102 | The same over the whole pass, with categories drawn from the feeds. |
| Ingestion.RunPassAddsUniqueNewLinks | main.py:101-102 | Over a store with links `known`, the posts a pass adds have pairwise distinct links, none already stored, each tagged with a feed's category. Afterwards a query finds exactly the stored and added links. |
| Ingestion.HaltIgnoresLaterEntries | main.py:98-111 | Once an entry raises, the later entries of that feed are never looked at. |
| Ingestion.HaltEndsFeed | main.py:111 | The feed's outcome is fixed at the entry that raised. |
| Ingestion.RunPassSplits | main.py:97-111 | Later feeds are processed from whatever state the earlier feeds left, however those feeds ended. |
| Ingestion.FailedFetchContributesNothing | main.py:98-99 | A feed whose fetch raises leaves the pass as if the feed were not in the list. |
| Ingestion.FeedPassSettles | main.py:101 | After a feed finishes without an exception, a query finds every one of its entries' links, so all of them would be skipped. |
| Ingestion.FeedPassOnSettled | main.py:101-102 | A feed whose entries are all settled changes nothing. |
| Ingestion.SettledGrows | main.py:101 | A settled entry stays settled as more links are stored. |
| Ingestion.RunPassSettles | main.py:97-111 | After a pass with no feed ended early, every entry the feeds hand over is settled. |
| Ingestion.RunPassOnSettled | main.py:97-111 | A pass over settled feeds changes nothing. |
| Ingestion.RerunAddsNothing | main.py:92-113 | If no feed was ended by an exception, running the pass again over unchanged feeds adds nothing. |
| Ingestion.FeedsSettledReordered | main.py:96 | Whether every fetched entry is settled does not depend on the order of the feeds. It carries over to a step that skips at least as much. |
| Ingestion.ReshuffledRerunAddsNothing | main.py:96-111 | The same holds for a second pass that takes the feeds in any permutation, with any step that skips at least what the first one skipped. |
| Ingestion.FeedPassAddsOnly | main.py:100-110 | If every post the step admits satisfies a property, every post one feed adds satisfies it. |
| Ingestion.RunPassAddsOnly | main.py:97-111 | The same over the whole pass. |
| Ingestion.FeedPass | main.py:100-110 | Definition, without a contract of its own: the entry loop of one feed as a fold that stops at the first entry that raises. `IngestFeed` is proved equal to it, and the `FeedPass…` lemmas state its properties. |
| Ingestion.FeedTurn | main.py:98-111 | Definition, without a contract of its own: one turn of the feed loop. A fetch that raises leaves the state unchanged; otherwise the first `cap` entries are run. `FeedTurnExtends` states its properties. |
| Ingestion.RunPass | main.py:97-111 | Definition, without a contract of its own: the loop over the feeds in the chosen order. `Generate` and `Run` are proved equal to it, and the `RunPass…` lemmas state its properties. |
| MainApp.Bucket | main.py:72-77 | Definition, without a contract of its own: the branch chain over the timedelta's `days` (elapsed div 86400) and `seconds` (elapsed mod 86400). `BucketBracketsElapsed` and `FutureDateReadsAsHoursAgo` state its properties. |
| MainApp.Render | main.py:72-77 | Definition, without a contract of its own: the label text of each bucket. `TimeAgoOfPastDate` states it in closed form. |
| MainApp.PostShape | main.py:104-109 | Definition, without a contract of its own: the shape of every post the route adds, proved by `GeneratedPostsAreWellFormed`. |
| GenerateScript.PostShape | generate.py:48-52 | Definition, without a contract of its own: the shape of every post the script adds, proved by `RunPostsAreWellFormed`. |
| Text.ReplaceFirst | main.py:13 | Definition, without a contract of its own: `s.replace(pat, rep, 1)` via `IndexOf`. `ReplaceFirstAtStart` states it for a leading match. |
| Text.StartsWith | main.py:12 | Definition, without a contract of its own: `s.startswith(p)`, the prefix test used for the scheme check and the http test. |
| MainApp.HttpUrl | main.py:57 | Definition, without a contract of its own: the route's image test `url.startswith('http')`, which also rejects the empty string. |
| GenerateScript.NonEmpty | generate.py:30 | Definition, without a contract of its own: the script's image test, Python truthiness of a string. |

## Left out

- Flask routes, the `/` listing query and the HTML template are presentation only.
- `CATEGORIES` is used only by the template and is not modelled.
- Network fetching and feed parsing are the `fetch` parameter. HTML stripping is the `strip` parameter. Neither library is modelled.
- `dateutil` parsing, `datetime.now()` and the clash between naive and timezone-aware datetimes are the `parse` parameter. A subtraction that raises is its `None`.
- `random.choice` is the `pick` oracle. The model does not say prefixes are uniformly distributed.
- `random.shuffle(FEEDS)` is the `order` argument, a permutation of `feeds`. The model does not capture that the shuffle reorders the module-level list in place, so later calls start from the previous order.
- SQLAlchemy engine setup, `db.create_all()`, the `id` column and column length limits are not modelled. The session is modelled only as committed rows plus pending posts that queries see through autoflush.
- A commit failing, for example on a duplicate link inserted by a concurrent run, is not modelled; neither is concurrency in general.
- The model treats feedparser's `summary` and `description` as independent attributes. The library's aliasing of one to the other is not modelled.
- Python slicing counts code points; the model counts `char` elements.
- The final `print` in `generate.py` is the returned `message`.
- `generator.py` is not part of this model, because it is truncated and holds only configuration. `init_db.py` is not part of this model either, because it only creates the tables.
- Ingestion.RerunAddsNothing: requires that no feed was ended early by an exception in the first run. An abandoned feed's later entries may never have been examined, so a rerun over the same feeds can add them. The same requirement holds for Ingestion.ReshuffledRerunAddsNothing, MainApp.RegenerateAddsNothing and GenerateScript.RerunScriptAddsNothing. All four also assume that every feed returns the same entries the second time.
- MainApp.GeneratedPostsAreWellFormed: states the shape of each added post, not its pub_date. The pub_date depends on the entry the post was built from, so it is stated per entry on MainApp.BuildPost. GenerateScript.RunPostsAreWellFormed is the same.

## Findings

| source | as written | input that shows it | evidently intended | confidence | as-written member | corrected member |
|---|---|---|---|---|---|---|
| main.py:71-74 | `diff = now - dt` is a `timedelta`. For a date in the future, `diff.days` is -1 and `diff.seconds` is close to 86400. The `days` tests fail and the `seconds >= 7200` branch reports hours in the past. | A naive date one hour ahead of the server clock (elapsed -3600 s) gives "23h ago". | A date that is not in the past reads "Just now", and no label overstates the elapsed time. | not executed; low (feeds usually carry timezone-aware dates, whose subtraction from the naive `now()` raises and gives "Recently") | MainApp.FutureDateReadsAsHoursAgo | MainApp.IntendedTimeAgo |
