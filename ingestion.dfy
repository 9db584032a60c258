/**
 * The shape shared by both copies of the ingestion pass (the `/generate` route of
 * main.py and `run` in generate.py): for each feed in the chosen order, fetch it,
 * take the first `cap` entries and hand each one to a per-entry step that skips it,
 * abandons the rest of the feed (an exception caught by the per-feed `except`), or
 * admits a new post. The copies differ only in their step and their cap.
 */
module Ingestion {
  import opened Wrappers
  import opened Text
  import opened Feeds

  /** What one entry does to the pass. */
  datatype Step = Skip | Halt | Admit(post: Post)

  /**
   * The per-entry step: given the entry, the feed's category, the links a query can
   * currently find, and the number of posts admitted so far in this pass.
   */
  type Stepper = (Entry, string, set<string>, nat) -> Step

  /** `feedparser.parse(url).entries`, or `None` when fetching or parsing raised. */
  type Fetcher = string -> Option<seq<Entry>>

  /** The links a query can find, and the posts this pass has added to the session. */
  datatype PassState = PassState(known: set<string>, added: seq<Post>)

  /** The state after a feed's entries, and whether an exception ended the feed early. */
  datatype FeedOutcome = FeedOutcome(state: PassState, halted: bool)

  function Start(known: set<string>): PassState {
    PassState(known, [])
  }

  function Apply(step: Stepper, category: string, e: Entry, st: PassState): FeedOutcome {
    match step(e, category, st.known, |st.added|)
    case Skip => FeedOutcome(st, false)
    case Halt => FeedOutcome(st, true)
    case Admit(p) => FeedOutcome(PassState(st.known + {p.link}, st.added + [p]), false)
  }

  /** The inner `for e in entries` loop inside the per-feed `try`. */
  function FeedPass(step: Stepper, category: string, entries: seq<Entry>, st: PassState): FeedOutcome
    decreases |entries|
  {
    if entries == [] then FeedOutcome(st, false)
    else
      var before := FeedPass(step, category, entries[..|entries| - 1], st);
      if before.halted then before else Apply(step, category, entries[|entries| - 1], before.state)
  }

  /** One iteration of the outer `for cat, url in FEEDS` loop. */
  function FeedTurn(step: Stepper, fetch: Fetcher, cap: nat, source: FeedSource, st: PassState): PassState {
    match fetch(source.url)
    case None => st
    case Some(entries) => FeedPass(step, source.category, Take(entries, cap), st).state
  }

  /** The whole pass over the feeds in the given order. */
  function RunPass(step: Stepper, fetch: Fetcher, cap: nat, feeds: seq<FeedSource>, st: PassState): PassState
    decreases |feeds|
  {
    if feeds == [] then st
    else FeedTurn(step, fetch, cap, feeds[|feeds| - 1], RunPass(step, fetch, cap, feeds[..|feeds| - 1], st))
  }

  /** One more entry of a feed that has not been ended early: the step applied to the state so far. */
  lemma FeedPassNext(step: Stepper, category: string, entries: seq<Entry>, j: nat, st: PassState)
    requires j < |entries| && !FeedPass(step, category, entries[..j], st).halted
    ensures FeedPass(step, category, entries[..j + 1], st)
         == Apply(step, category, entries[j], FeedPass(step, category, entries[..j], st).state)
  {
    assert entries[..j + 1][..j] == entries[..j];
  }

  /** One more feed of the pass: its turn applied to the state so far. */
  lemma RunPassNext(step: Stepper, fetch: Fetcher, cap: nat, feeds: seq<FeedSource>, i: nat, st: PassState)
    requires i < |feeds|
    ensures RunPass(step, fetch, cap, feeds[..i + 1], st)
         == FeedTurn(step, fetch, cap, feeds[i], RunPass(step, fetch, cap, feeds[..i], st))
  {
    assert feeds[..i + 1][..i] == feeds[..i];
  }

  /** The categories of the given feeds. */
  function CategoriesOf(feeds: seq<FeedSource>): set<string> {
    set j | 0 <= j < |feeds| :: feeds[j].category
  }

  // ---------------------------------------------------------------------------
  // Counting: a feed adds at most one post per examined entry.

  /** A feed only appends to the posts added so far, at most one per entry, and only grows the known links. */
  lemma {:induction false} FeedPassExtends(step: Stepper, category: string, entries: seq<Entry>, st: PassState)
    ensures var r := FeedPass(step, category, entries, st).state;
      |st.added| <= |r.added| <= |st.added| + |entries| && r.added[..|st.added|] == st.added
      && st.known <= r.known
  {
    if entries != [] {
      FeedPassExtends(step, category, entries[..|entries| - 1], st);
    }
  }

  /** One feed adds at most `cap` posts, and nothing when fetching it raised. */
  lemma FeedTurnExtends(step: Stepper, fetch: Fetcher, cap: nat, source: FeedSource, st: PassState)
    ensures var r := FeedTurn(step, fetch, cap, source, st);
      |st.added| <= |r.added| <= |st.added| + cap && r.added[..|st.added|] == st.added
      && st.known <= r.known
    ensures fetch(source.url).None? ==> FeedTurn(step, fetch, cap, source, st) == st
  {
    match fetch(source.url)
    case None =>
    case Some(entries) => FeedPassExtends(step, source.category, Take(entries, cap), st);
  }

  /** A pass only appends: earlier posts stay in place and known links are kept. */
  lemma {:induction false} RunPassExtends(step: Stepper, fetch: Fetcher, cap: nat, feeds: seq<FeedSource>, st: PassState)
    ensures var r := RunPass(step, fetch, cap, feeds, st);
      |st.added| <= |r.added| && r.added[..|st.added|] == st.added && st.known <= r.known
  {
    if feeds != [] {
      var front := feeds[..|feeds| - 1];
      var mid := RunPass(step, fetch, cap, front, st);
      RunPassExtends(step, fetch, cap, front, st);
      FeedTurnExtends(step, fetch, cap, feeds[|feeds| - 1], mid);
      var r := FeedTurn(step, fetch, cap, feeds[|feeds| - 1], mid);
      assert r.added[..|st.added|] == r.added[..|mid.added|][..|st.added|];
    }
  }

  /** A pass adds at most `cap` posts per feed: `added <= cap * len(FEEDS)`. */
  lemma {:induction false} RunPassBound(step: Stepper, fetch: Fetcher, cap: nat, feeds: seq<FeedSource>, st: PassState)
    ensures var r := RunPass(step, fetch, cap, feeds, st);
      |st.added| <= |r.added| <= |st.added| + cap * |feeds|
  {
    if feeds != [] {
      var front := feeds[..|feeds| - 1];
      var mid := RunPass(step, fetch, cap, front, st);
      RunPassBound(step, fetch, cap, front, st);
      FeedTurnExtends(step, fetch, cap, feeds[|feeds| - 1], mid);
      MulStep(cap, |front|);
    }
  }

  lemma MulStep(cap: nat, n: nat)
    ensures cap * (n + 1) == cap * n + cap
  {
  }

  // ---------------------------------------------------------------------------
  // Deduplication: a pass never adds a link twice, nor one already stored.

  /** The step admits only posts whose link no query can find yet, tagged with the feed's category. */
  ghost predicate AdmitsOnlyNew(step: Stepper) {
    forall e, category, known, k :: step(e, category, known, k).Admit? ==>
      step(e, category, known, k).post.link !in known
      && step(e, category, known, k).post.category == category
  }

  /** The posts added over a store whose links were `base` are new and distinct, and `known` is their union. */
  ghost predicate FreshOver(base: set<string>, st: PassState) {
    UniqueLinks(st.added)
    && st.known == base + LinksOf(st.added)
    && forall i :: 0 <= i < |st.added| ==> st.added[i].link !in base
  }

  lemma {:induction false} FeedPassKeepsFresh(step: Stepper, category: string, entries: seq<Entry>, st: PassState, base: set<string>)
    requires AdmitsOnlyNew(step) && FreshOver(base, st)
    ensures var r := FeedPass(step, category, entries, st).state;
      FreshOver(base, r) && |st.added| <= |r.added|
      && forall i :: |st.added| <= i < |r.added| ==> r.added[i].category == category
  {
    if entries != [] {
      var before := FeedPass(step, category, entries[..|entries| - 1], st);
      FeedPassKeepsFresh(step, category, entries[..|entries| - 1], st, base);
      FeedPassExtends(step, category, entries[..|entries| - 1], st);
      if !before.halted {
        var s := before.state;
        var e := entries[|entries| - 1];
        match step(e, category, s.known, |s.added|)
        case Skip =>
        case Halt =>
        case Admit(p) =>
          UniqueLinksAppend(s.added, p);
          LinksOfAppend(s.added, p);
      }
    }
  }

  lemma {:induction false} RunPassKeepsFresh(step: Stepper, fetch: Fetcher, cap: nat, feeds: seq<FeedSource>, st: PassState, base: set<string>)
    requires AdmitsOnlyNew(step) && FreshOver(base, st)
    ensures var r := RunPass(step, fetch, cap, feeds, st);
      FreshOver(base, r) && |st.added| <= |r.added|
      && forall i :: |st.added| <= i < |r.added| ==> r.added[i].category in CategoriesOf(feeds)
  {
    if feeds != [] {
      var front := feeds[..|feeds| - 1];
      var mid := RunPass(step, fetch, cap, front, st);
      RunPassKeepsFresh(step, fetch, cap, front, st, base);
      var source := feeds[|feeds| - 1];
      assert source.category in CategoriesOf(feeds);
      assert CategoriesOf(front) <= CategoriesOf(feeds) by {
        forall c | c in CategoriesOf(front) ensures c in CategoriesOf(feeds) {
          var j :| 0 <= j < |front| && front[j].category == c;
          assert feeds[j] == front[j];
        }
      }
      match fetch(source.url)
      case None =>
      case Some(entries) =>
        FeedPassKeepsFresh(step, source.category, Take(entries, cap), mid, base);
        FeedPassExtends(step, source.category, Take(entries, cap), mid);
    }
  }

  /**
   * Over a store whose links are `known`, the posts a pass adds have pairwise distinct
   * links, none of them already stored, each tagged with the category of one of the feeds;
   * afterwards a query finds exactly the stored links and the added ones.
   */
  lemma RunPassAddsUniqueNewLinks(step: Stepper, fetch: Fetcher, cap: nat, feeds: seq<FeedSource>, known: set<string>)
    requires AdmitsOnlyNew(step)
    ensures var r := RunPass(step, fetch, cap, feeds, Start(known));
      UniqueLinks(r.added)
      && r.known == known + LinksOf(r.added)
      && (forall i :: 0 <= i < |r.added| ==> r.added[i].link !in known)
      && (forall i :: 0 <= i < |r.added| ==> r.added[i].category in CategoriesOf(feeds))
  {
    assert FreshOver(known, Start(known)) by {
      assert LinksOf([]) == {};
    }
    RunPassKeepsFresh(step, fetch, cap, feeds, Start(known), known);
  }

  // ---------------------------------------------------------------------------
  // Post shape: whatever the step guarantees of each post it admits holds of every
  // post a pass adds.

  /** Every post the step admits satisfies `P`. */
  ghost predicate AdmitsOnly(step: Stepper, P: Post -> bool) {
    forall e, category, known, k :: step(e, category, known, k).Admit? ==> P(step(e, category, known, k).post)
  }

  ghost predicate AllSatisfy(posts: seq<Post>, P: Post -> bool) {
    forall i :: 0 <= i < |posts| ==> P(posts[i])
  }

  lemma {:induction false} FeedPassAddsOnly(step: Stepper, P: Post -> bool, category: string, entries: seq<Entry>, st: PassState)
    requires AdmitsOnly(step, P) && AllSatisfy(st.added, P)
    ensures AllSatisfy(FeedPass(step, category, entries, st).state.added, P)
  {
    if entries != [] {
      FeedPassAddsOnly(step, P, category, entries[..|entries| - 1], st);
    }
  }

  /** Every post a pass adds satisfies what the step promises of each admitted post. */
  lemma {:induction false} RunPassAddsOnly(step: Stepper, P: Post -> bool, fetch: Fetcher, cap: nat, feeds: seq<FeedSource>, st: PassState)
    requires AdmitsOnly(step, P) && AllSatisfy(st.added, P)
    ensures AllSatisfy(RunPass(step, fetch, cap, feeds, st).added, P)
  {
    if feeds != [] {
      var front := feeds[..|feeds| - 1];
      var source := feeds[|feeds| - 1];
      RunPassAddsOnly(step, P, fetch, cap, front, st);
      match fetch(source.url)
      case None =>
      case Some(entries) =>
        FeedPassAddsOnly(step, P, source.category, Take(entries, cap), RunPass(step, fetch, cap, front, st));
    }
  }

  // ---------------------------------------------------------------------------
  // Isolation: an exception ends only its own feed.

  /** Once an exception has ended a feed, its later entries are never looked at. */
  lemma {:induction false} HaltIgnoresLaterEntries(step: Stepper, category: string, entries: seq<Entry>, more: seq<Entry>, st: PassState)
    requires FeedPass(step, category, entries, st).halted
    ensures FeedPass(step, category, entries + more, st) == FeedPass(step, category, entries, st)
    decreases |more|
  {
    if more == [] {
      assert entries + more == entries;
    } else {
      var shorter := more[..|more| - 1];
      HaltIgnoresLaterEntries(step, category, entries, shorter, st);
      assert (entries + more)[..|entries + more| - 1] == entries + shorter;
    }
  }

  /** The same, for a feed cut at the entry that raised. */
  lemma HaltEndsFeed(step: Stepper, category: string, entries: seq<Entry>, j: nat, st: PassState)
    requires j < |entries| && FeedPass(step, category, entries[..j + 1], st).halted
    ensures FeedPass(step, category, entries, st) == FeedPass(step, category, entries[..j + 1], st)
  {
    HaltIgnoresLaterEntries(step, category, entries[..j + 1], entries[j + 1..], st);
    assert entries[..j + 1] + entries[j + 1..] == entries;
  }

  /** Later feeds are processed from whatever state earlier ones left, however those ended. */
  lemma {:induction false} RunPassSplits(step: Stepper, fetch: Fetcher, cap: nat, first: seq<FeedSource>, rest: seq<FeedSource>, st: PassState)
    ensures RunPass(step, fetch, cap, first + rest, st)
         == RunPass(step, fetch, cap, rest, RunPass(step, fetch, cap, first, st))
    decreases |rest|
  {
    if rest == [] {
      assert first + rest == first;
    } else {
      var shorter := rest[..|rest| - 1];
      RunPassSplits(step, fetch, cap, first, shorter, st);
      assert (first + rest)[..|first + rest| - 1] == first + shorter;
      assert (first + rest)[|first + rest| - 1] == rest[|rest| - 1];
    }
  }

  /** A feed whose fetch raised contributes nothing: the pass is the pass without that feed. */
  lemma FailedFetchContributesNothing(step: Stepper, fetch: Fetcher, cap: nat, feeds: seq<FeedSource>, j: nat, st: PassState)
    requires j < |feeds| && fetch(feeds[j].url).None?
    ensures RunPass(step, fetch, cap, feeds, st) == RunPass(step, fetch, cap, feeds[..j] + feeds[j + 1..], st)
  {
    var before, rest := feeds[..j], feeds[j + 1..];
    assert feeds == (before + [feeds[j]]) + rest;
    RunPassSplits(step, fetch, cap, before + [feeds[j]], rest, st);
    assert (before + [feeds[j]])[..j] == before;
    RunPassSplits(step, fetch, cap, before, rest, st);
  }

  // ---------------------------------------------------------------------------
  // Re-running: once a pass has seen every entry, a second pass adds nothing.

  /** A skip stays a skip when more links are known. */
  ghost predicate SkipIsStable(step: Stepper) {
    forall e, category, known, k, known', k' ::
      known <= known' && step(e, category, known, k).Skip? ==> step(e, category, known', k').Skip?
  }

  /** An admitted entry is skipped as soon as its post's link is known. */
  ghost predicate AdmittedLinkSettles(step: Stepper) {
    forall e, category, known, k, known', k' ::
      step(e, category, known, k).Admit? && step(e, category, known, k).post.link in known'
      ==> step(e, category, known', k').Skip?
  }

  /** Entry `e` of a feed with this category is skipped whenever at least `base` is known. */
  ghost predicate Settled(step: Stepper, category: string, e: Entry, base: set<string>) {
    forall known, k :: base <= known ==> step(e, category, known, k).Skip?
  }

  ghost predicate AllSettled(step: Stepper, category: string, entries: seq<Entry>, base: set<string>) {
    forall i :: 0 <= i < |entries| ==> Settled(step, category, entries[i], base)
  }

  lemma {:induction false} FeedPassSettles(step: Stepper, category: string, entries: seq<Entry>, st: PassState)
    requires SkipIsStable(step) && AdmittedLinkSettles(step)
    requires !FeedPass(step, category, entries, st).halted
    ensures AllSettled(step, category, entries, FeedPass(step, category, entries, st).state.known)
  {
    if entries != [] {
      var front := entries[..|entries| - 1];
      var e := entries[|entries| - 1];
      var before := FeedPass(step, category, front, st);
      FeedPassSettles(step, category, front, st);
      var s := before.state;
      var after := FeedPass(step, category, entries, st).state;
      assert s.known <= after.known;
      forall i | 0 <= i < |entries| ensures Settled(step, category, entries[i], after.known) {
        if i < |front| {
          assert entries[i] == front[i];
        } else {
          assert entries[i] == e;
          forall known, k | after.known <= known ensures step(e, category, known, k).Skip? {
            match step(e, category, s.known, |s.added|)
            case Skip =>
            case Admit(p) =>
              assert p.link in known;
          }
        }
      }
    }
  }

  lemma {:induction false} FeedPassOnSettled(step: Stepper, category: string, entries: seq<Entry>, st: PassState, base: set<string>)
    requires AllSettled(step, category, entries, base) && base <= st.known
    ensures FeedPass(step, category, entries, st) == FeedOutcome(st, false)
  {
    if entries != [] {
      var front := entries[..|entries| - 1];
      assert AllSettled(step, category, front, base) by {
        forall i | 0 <= i < |front| ensures Settled(step, category, front[i], base) {
          assert front[i] == entries[i];
        }
      }
      FeedPassOnSettled(step, category, front, st, base);
      assert Settled(step, category, entries[|entries| - 1], base);
    }
  }

  /** No feed of the pass was ended early by an exception. */
  ghost predicate NoHalts(step: Stepper, fetch: Fetcher, cap: nat, feeds: seq<FeedSource>, st: PassState)
    decreases |feeds|
  {
    feeds == [] ||
    (var front := feeds[..|feeds| - 1];
     var source := feeds[|feeds| - 1];
     NoHalts(step, fetch, cap, front, st) &&
     (fetch(source.url).Some? ==>
        !FeedPass(step, source.category, Take(fetch(source.url).value, cap), RunPass(step, fetch, cap, front, st)).halted))
  }

  /** Every entry the fetched feeds hand to the step is settled once `base` is known. */
  ghost predicate FeedsSettled(step: Stepper, fetch: Fetcher, cap: nat, feeds: seq<FeedSource>, base: set<string>) {
    forall j :: 0 <= j < |feeds| && fetch(feeds[j].url).Some? ==>
      AllSettled(step, feeds[j].category, Take(fetch(feeds[j].url).value, cap), base)
  }

  lemma {:induction false} SettledGrows(step: Stepper, category: string, entries: seq<Entry>, base: set<string>, base': set<string>)
    requires AllSettled(step, category, entries, base) && base <= base'
    ensures AllSettled(step, category, entries, base')
  {
    forall i | 0 <= i < |entries| ensures Settled(step, category, entries[i], base') {
      assert Settled(step, category, entries[i], base);
    }
  }

  lemma {:induction false} RunPassSettles(step: Stepper, fetch: Fetcher, cap: nat, feeds: seq<FeedSource>, st: PassState)
    requires SkipIsStable(step) && AdmittedLinkSettles(step)
    requires NoHalts(step, fetch, cap, feeds, st)
    ensures FeedsSettled(step, fetch, cap, feeds, RunPass(step, fetch, cap, feeds, st).known)
  {
    if feeds != [] {
      var front := feeds[..|feeds| - 1];
      var source := feeds[|feeds| - 1];
      var mid := RunPass(step, fetch, cap, front, st);
      var after := RunPass(step, fetch, cap, feeds, st);
      RunPassSettles(step, fetch, cap, front, st);
      assert mid.known <= after.known by {
        match fetch(source.url)
        case None =>
        case Some(entries) => FeedPassExtends(step, source.category, Take(entries, cap), mid);
      }
      forall j | 0 <= j < |feeds| && fetch(feeds[j].url).Some?
        ensures AllSettled(step, feeds[j].category, Take(fetch(feeds[j].url).value, cap), after.known)
      {
        if j < |front| {
          assert feeds[j] == front[j];
          SettledGrows(step, feeds[j].category, Take(fetch(feeds[j].url).value, cap), mid.known, after.known);
        } else {
          FeedPassSettles(step, source.category, Take(fetch(source.url).value, cap), mid);
        }
      }
    }
  }

  lemma {:induction false} RunPassOnSettled(step: Stepper, fetch: Fetcher, cap: nat, feeds: seq<FeedSource>, st: PassState, base: set<string>)
    requires FeedsSettled(step, fetch, cap, feeds, base) && base <= st.known
    ensures RunPass(step, fetch, cap, feeds, st) == st
  {
    if feeds != [] {
      var front := feeds[..|feeds| - 1];
      var source := feeds[|feeds| - 1];
      assert FeedsSettled(step, fetch, cap, front, base) by {
        forall j | 0 <= j < |front| && fetch(front[j].url).Some?
          ensures AllSettled(step, front[j].category, Take(fetch(front[j].url).value, cap), base)
        {
          assert front[j] == feeds[j];
        }
      }
      RunPassOnSettled(step, fetch, cap, front, st, base);
      match fetch(source.url)
      case None =>
      case Some(entries) =>
        FeedPassOnSettled(step, source.category, Take(entries, cap), st, base);
    }
  }

  /**
   * Re-running the pass on unchanged feeds, after a first pass in which no feed was
   * ended by an exception, adds nothing and leaves the known links as they were.
   */
  lemma RerunAddsNothing(step: Stepper, fetch: Fetcher, cap: nat, feeds: seq<FeedSource>, known: set<string>)
    requires SkipIsStable(step) && AdmittedLinkSettles(step)
    requires NoHalts(step, fetch, cap, feeds, Start(known))
    ensures var first := RunPass(step, fetch, cap, feeds, Start(known));
      RunPass(step, fetch, cap, feeds, Start(first.known)) == Start(first.known)
  {
    var first := RunPass(step, fetch, cap, feeds, Start(known));
    RunPassSettles(step, fetch, cap, feeds, Start(known));
    RunPassOnSettled(step, fetch, cap, feeds, Start(first.known), first.known);
  }

  /** `step2` skips at least what `step` skips, whatever the count of posts added so far. */
  ghost predicate SkipsAtLeast(step: Stepper, step2: Stepper) {
    forall e, category, known, k, k' :: step(e, category, known, k).Skip? ==> step2(e, category, known, k').Skip?
  }

  /** Settledness does not depend on the order of the feeds, and carries over to a step that skips more. */
  lemma FeedsSettledReordered(step: Stepper, step2: Stepper, fetch: Fetcher, cap: nat, feeds: seq<FeedSource>, order: seq<FeedSource>, base: set<string>)
    requires FeedsSettled(step, fetch, cap, feeds, base) && SkipsAtLeast(step, step2)
    requires multiset(order) == multiset(feeds)
    ensures FeedsSettled(step2, fetch, cap, order, base)
  {
    forall j | 0 <= j < |order| && fetch(order[j].url).Some?
      ensures AllSettled(step2, order[j].category, Take(fetch(order[j].url).value, cap), base)
    {
      assert order[j] in multiset(feeds);
      var j' :| 0 <= j' < |feeds| && feeds[j'] == order[j];
      var entries := Take(fetch(order[j].url).value, cap);
      forall i | 0 <= i < |entries| ensures Settled(step2, order[j].category, entries[i], base) {
        assert Settled(step, feeds[j'].category, entries[i], base);
        forall known, k | base <= known ensures step2(entries[i], order[j].category, known, k).Skip? {
          assert step(entries[i], order[j].category, known, 0).Skip?;
        }
      }
    }
  }

  /**
   * The same for a second pass that reshuffles the feeds and draws its random choices
   * afresh: over any permutation of the feeds, with any step that skips at least what
   * the first one skipped, it adds nothing.
   */
  lemma ReshuffledRerunAddsNothing(step: Stepper, step2: Stepper, fetch: Fetcher, cap: nat, feeds: seq<FeedSource>, order: seq<FeedSource>, known: set<string>)
    requires SkipIsStable(step) && AdmittedLinkSettles(step) && SkipsAtLeast(step, step2)
    requires NoHalts(step, fetch, cap, feeds, Start(known))
    requires multiset(order) == multiset(feeds)
    ensures var first := RunPass(step, fetch, cap, feeds, Start(known));
      RunPass(step2, fetch, cap, order, Start(first.known)) == Start(first.known)
  {
    var first := RunPass(step, fetch, cap, feeds, Start(known));
    RunPassSettles(step, fetch, cap, feeds, Start(known));
    FeedsSettledReordered(step, step2, fetch, cap, feeds, order, first.known);
    RunPassOnSettled(step2, fetch, cap, order, Start(first.known), first.known);
  }
}
