/**
 * The page tree of juscms/pages/models.py as values: page records keyed by id,
 * their ancestor chains, the materialized URL path `build_path` computes from
 * them, and the store a non-home `Page.save` (with its post-save handler)
 * leaves behind.
 */
module PageTree {
  import opened Wrappers

  /** One `Page` row: the fields the tree bookkeeping reads or writes. */
  datatype Page = Page(
    title: string,
    slug: string,
    path: string,
    parent: Option<int>,
    isHome: bool,
    template: string)

  /** The `Page` table, keyed by primary key. */
  type Store = map<int, Page>

  /**
   * Every parent reference points at a stored page of strictly smaller rank,
   * so the parent relation is acyclic. The tree library that guards against
   * cycles is not part of this model; its guarantee is taken as this invariant.
   */
  ghost predicate Ranked(pages: Store, rank: map<int, nat>)
  {
    forall id :: id in pages ==>
      && id in rank
      && (pages[id].parent.Some? ==>
            && pages[id].parent.value in pages
            && pages[id].parent.value in rank
            && rank[pages[id].parent.value] < rank[id])
  }

  /** `chain` lists the ancestors of `id`, root first, ending with `id` itself. */
  ghost predicate IsChain(pages: Store, chain: seq<int>, id: int)
  {
    && |chain| >= 1
    && chain[|chain| - 1] == id
    && (forall i :: 0 <= i < |chain| ==> chain[i] in pages)
    && pages[chain[0]].parent == None
    && (forall i :: 0 <= i < |chain| - 1 ==> pages[chain[i + 1]].parent == Some(chain[i]))
  }

  /** `get_ancestors(include_self=True)`: root first, the page itself last. */
  ghost function Ancestors(pages: Store, rank: map<int, nat>, id: int): (chain: seq<int>)
    requires Ranked(pages, rank) && id in pages
    ensures IsChain(pages, chain, id)
    decreases rank[id]
  {
    match pages[id].parent
    case None => [id]
    case Some(p) => Ancestors(pages, rank, p) + [id]
  }

  /** The accumulator of the `build_path` loop: each page's slug followed by '/'. */
  ghost function JoinSlugs(pages: Store, chain: seq<int>): string
    requires forall i :: 0 <= i < |chain| ==> chain[i] in pages
  {
    if chain == [] then ""
    else JoinSlugs(pages, chain[..|chain| - 1]) + pages[chain[|chain| - 1]].slug + "/"
  }

  /** `Page.build_path` evaluated against the stored tree: never empty, and it always ends with '/'. */
  ghost function BuildPath(pages: Store, rank: map<int, nat>, id: int): (path: string)
    requires Ranked(pages, rank) && id in pages
    ensures |path| > 0 && path[|path| - 1] == '/'
  {
    JoinSlugs(pages, Ancestors(pages, rank, id))
  }

  /** Writing a parentless record under `id` keeps the table acyclic, with `id` given the lowest rank. */
  lemma RankedDetached(pages: Store, rank: map<int, nat>, id: int, rec: Page)
    requires Ranked(pages, rank) && rec.parent.None?
    ensures Ranked(pages[id := rec], rank[id := 0])
  {
  }

  /** Two tables that agree on ids, parents and slugs: every path is the same in both. */
  ghost predicate SameShape(p1: Store, p2: Store)
  {
    && p1.Keys == p2.Keys
    && forall k :: k in p1 ==> p1[k].parent == p2[k].parent && p1[k].slug == p2[k].slug
  }

  /** A second write to the same row replaces the first. */
  lemma OverwriteRow(pages: Store, id: int, first: Page, second: Page)
    ensures pages[id := first][id := second] == pages[id := second]
  {
  }

  /** Only the tree shape (ids and parents) counts for the rank invariant. */
  lemma RankedSameParents(p1: Store, p2: Store, rank: map<int, nat>)
    requires Ranked(p1, rank)
    requires p1.Keys == p2.Keys
    requires forall k :: k in p1 ==> p1[k].parent == p2[k].parent
    ensures Ranked(p2, rank)
  {
  }

  /** A chain has one element exactly for a root; otherwise its second-to-last entry is the parent. */
  lemma ChainLast(pages: Store, chain: seq<int>, id: int)
    requires IsChain(pages, chain, id)
    ensures |chain| == 1 <==> pages[id].parent.None?
    ensures |chain| > 1 ==> pages[id].parent == Some(chain[|chain| - 2])
  {
    if |chain| > 1 {
      assert pages[chain[|chain| - 2 + 1]].parent == Some(chain[|chain| - 2]);
    }
  }

  /** An ancestor chain is determined by the tree: there is only one. */
  lemma {:induction false} ChainUnique(pages: Store, c1: seq<int>, c2: seq<int>, id: int)
    requires IsChain(pages, c1, id) && IsChain(pages, c2, id)
    ensures c1 == c2
    decreases |c1|
  {
    ChainLast(pages, c1, id);
    ChainLast(pages, c2, id);
    if |c1| > 1 {
      var p := c1[|c1| - 2];
      var d1, d2 := c1[..|c1| - 1], c2[..|c2| - 1];
      assert IsChain(pages, d1, p);
      assert IsChain(pages, d2, p);
      ChainUnique(pages, d1, d2, p);
      assert c1 == d1 + [id] && c2 == d2 + [id];
    }
  }

  /** The ancestors of a page do not depend on which rank witnesses acyclicity. */
  lemma AncestorsOfShape(p1: Store, r1: map<int, nat>, p2: Store, r2: map<int, nat>, id: int)
    requires Ranked(p1, r1) && Ranked(p2, r2) && SameShape(p1, p2) && id in p1
    ensures Ancestors(p1, r1, id) == Ancestors(p2, r2, id)
  {
    var c1, c2 := Ancestors(p1, r1, id), Ancestors(p2, r2, id);
    forall i | 0 <= i < |c2|
      ensures c2[i] in p1 && p1[c2[i]].parent == p2[c2[i]].parent
    {
      var k := c2[i];
      assert k in p2.Keys;
      assert k in p1;
    }
    assert IsChain(p1, c2, id);
    ChainUnique(p1, c1, c2, id);
  }

  /** The slugs joined along one chain agree when the two tables agree on slugs there. */
  lemma {:induction false} JoinSlugsOfShape(p1: Store, p2: Store, chain: seq<int>)
    requires SameShape(p1, p2)
    requires forall i :: 0 <= i < |chain| ==> chain[i] in p1
    ensures JoinSlugs(p1, chain) == JoinSlugs(p2, chain)
  {
    if chain != [] {
      var last := chain[|chain| - 1];
      assert p1[last].slug == p2[last].slug;
      JoinSlugsOfShape(p1, p2, chain[..|chain| - 1]);
    }
  }

  /** `build_path` reads only ids, parents and slugs: a change to any other field leaves every path as it was. */
  lemma BuildPathOfShape(p1: Store, r1: map<int, nat>, p2: Store, r2: map<int, nat>, id: int)
    requires Ranked(p1, r1) && Ranked(p2, r2) && SameShape(p1, p2) && id in p1
    ensures BuildPath(p1, r1, id) == BuildPath(p2, r2, id)
  {
    AncestorsOfShape(p1, r1, p2, r2, id);
    JoinSlugsOfShape(p1, p2, Ancestors(p1, r1, id));
  }

  /** Appending one page to a chain appends its slug and '/'. */
  lemma JoinSlugsSnoc(pages: Store, chain: seq<int>, x: int)
    requires forall i :: 0 <= i < |chain| ==> chain[i] in pages
    requires x in pages
    ensures JoinSlugs(pages, chain + [x]) == JoinSlugs(pages, chain) + pages[x].slug + "/"
  {
    assert (chain + [x])[..|chain|] == chain;
  }

  /**
   * The path of a page is its parent's path followed by its own slug and '/';
   * a page without a parent has just its slug and '/'.
   */
  lemma BuildPathStep(pages: Store, rank: map<int, nat>, id: int)
    requires Ranked(pages, rank) && id in pages
    ensures pages[id].parent.None? ==> BuildPath(pages, rank, id) == pages[id].slug + "/"
    ensures pages[id].parent.Some? ==>
      BuildPath(pages, rank, id) == BuildPath(pages, rank, pages[id].parent.value) + pages[id].slug + "/"
  {
    match pages[id].parent
    case None =>
      assert Ancestors(pages, rank, id) == [] + [id];
      JoinSlugsSnoc(pages, [], id);
    case Some(p) =>
      JoinSlugsSnoc(pages, Ancestors(pages, rank, p), id);
  }

  /** The path built for a page ends with that page's own slug and '/'. */
  lemma BuildPathEndsWithSlug(pages: Store, rank: map<int, nat>, id: int)
    requires Ranked(pages, rank) && id in pages
    ensures var path, tail := BuildPath(pages, rank, id), pages[id].slug + "/";
      |path| >= |tail| && path[|path| - |tail|..] == tail
  {
    BuildPathStep(pages, rank, id);
  }

  /**
   * The store after `save` on a non-home page followed by its post-save
   * handler: the slug is `slugify(title)`, and the path is the one built from
   * the tree in which the new slug is already written. No other page changes.
   */
  ghost function SaveNonHome(pages: Store, rank: map<int, nat>, id: int, inst: Page,
                             slugify: string -> string): (after: Store)
    requires !inst.isHome && Ranked(pages[id := inst], rank)
    ensures after.Keys == pages.Keys + {id}
    ensures after[id].slug == slugify(inst.title)
    ensures after[id] == inst.(slug := after[id].slug, path := after[id].path)
    ensures forall k :: k in pages && k != id ==> after[k] == pages[k]
  {
    var slugged := inst.(slug := slugify(inst.title));
    RankedSameParents(pages[id := inst], pages[id := slugged], rank);
    pages[id := slugged.(path := BuildPath(pages[id := slugged], rank, id))]
  }

  /** The saved page's stored path is the one built from the tree the save leaves behind, which stays acyclic. */
  lemma SaveNonHomeConsistent(pages: Store, rank: map<int, nat>, id: int, inst: Page,
                              slugify: string -> string)
    requires !inst.isHome && Ranked(pages[id := inst], rank)
    ensures var after := SaveNonHome(pages, rank, id, inst, slugify);
      && Ranked(after, rank)
      && after[id].path == BuildPath(after, rank, id)
  {
    var mid := pages[id := inst.(slug := slugify(inst.title))];
    RankedSameParents(pages[id := inst], mid, rank);
    var after := SaveNonHome(pages, rank, id, inst, slugify);
    RankedSameParents(mid, after, rank);
    BuildPathOfShape(mid, rank, after, rank, id);
  }

  /** Saving an already saved non-home page again changes nothing: the handler finds the path in place. */
  lemma SaveNonHomeIdempotent(pages: Store, rank: map<int, nat>, id: int, inst: Page,
                              slugify: string -> string)
    requires !inst.isHome && Ranked(pages[id := inst], rank)
    ensures var after := SaveNonHome(pages, rank, id, inst, slugify);
      && Ranked(after[id := after[id]], rank)
      && SaveNonHome(after, rank, id, after[id], slugify) == after
  {
    SaveNonHomeConsistent(pages, rank, id, inst, slugify);
    var after := SaveNonHome(pages, rank, id, inst, slugify);
    assert after[id := after[id]] == after;
    assert after[id := after[id].(slug := slugify(after[id].title))] == after;
  }

  /**
   * Saving a page does not touch its descendants: a child whose path was
   * consistent keeps its old path after the parent's slug changes, and that
   * old path no longer matches the tree.
   */
  lemma {:induction false} DescendantLeftStale(slugify: string -> string)
    requires slugify("Welcome") == "welcome" && slugify("Home") == "home"
    ensures
      var parent := Page("Home", "home", "home/", None, false, "page.html");
      var child := Page("About", "about", "home/about/", Some(1), false, "page.html");
      var before := map[1 := parent, 2 := child];
      var rank := map[1 := 0, 2 := 1];
      && Ranked(before, rank)
      && before[2].path == BuildPath(before, rank, 2)
      && var after := SaveNonHome(before, rank, 1, parent.(title := "Welcome"), slugify);
         && Ranked(after, rank)
         && after[2].path == "home/about/"
         && BuildPath(after, rank, 2) == "welcome/about/"
  {
    var parent := Page("Home", "home", "home/", None, false, "page.html");
    var child := Page("About", "about", "home/about/", Some(1), false, "page.html");
    var before := map[1 := parent, 2 := child];
    var rank := map[1 := 0, 2 := 1];
    assert Ranked(before, rank);
    BuildPathStep(before, rank, 1);
    BuildPathStep(before, rank, 2);
    assert BuildPath(before, rank, 2) == "home/about/";
    var renamed := parent.(title := "Welcome");
    assert before[1 := renamed] == map[1 := renamed, 2 := child];
    SaveNonHomeConsistent(before, rank, 1, renamed, slugify);
    var after := SaveNonHome(before, rank, 1, renamed, slugify);
    assert after[1].slug == "welcome" && after[1].parent.None?;
    assert after[2] == child;
    BuildPathStep(after, rank, 1);
    assert BuildPath(after, rank, 1) == "welcome/";
    BuildPathStep(after, rank, 2);
    assert BuildPath(after, rank, 2) == "welcome/about/";
  }

  /** At most one page carries the home flag. */
  ghost predicate AtMostOneHome(pages: Store)
  {
    forall a, b :: a in pages && b in pages && pages[a].isHome && pages[b].isHome ==> a == b
  }

  /** Every page flagged home is a root of the tree: a home save always clears the parent. */
  ghost predicate HomesAreRoots(pages: Store)
  {
    forall k :: k in pages && pages[k].isHome ==> pages[k].parent.None?
  }

  /** A non-home save never adds a home page, so both home invariants survive it. */
  lemma SaveNonHomeKeepsOneHome(pages: Store, rank: map<int, nat>, id: int, inst: Page,
                                slugify: string -> string)
    requires !inst.isHome && Ranked(pages[id := inst], rank)
    ensures AtMostOneHome(pages) ==> AtMostOneHome(SaveNonHome(pages, rank, id, inst, slugify))
    ensures HomesAreRoots(pages) ==> HomesAreRoots(SaveNonHome(pages, rank, id, inst, slugify))
  {
  }

  /**
   * A former home page after the demotion loop re-saved it as a non-home page:
   * the flag is cleared, the slug is `slugify(title)`, title, parent and
   * template are kept, and the page, a root like every home page, gets the
   * path `slug + "/"`.
   */
  ghost predicate Demoted(before: Page, after: Page, slugify: string -> string)
  {
    && !after.isHome
    && after.title == before.title
    && after.parent == before.parent
    && after.template == before.template
    && after.slug == slugify(before.title)
    && after.path == after.slug + "/"
  }

  /** Re-saving a stored page with its home flag cleared demotes it and changes no other page. */
  lemma DemotionStep(pages: Store, rank: map<int, nat>, k: int, slugify: string -> string)
    requires Ranked(pages, rank) && k in pages && pages[k].parent.None?
    ensures Ranked(pages[k := pages[k].(isHome := false)], rank)
    ensures var after := SaveNonHome(pages, rank, k, pages[k].(isHome := false), slugify);
      && after.Keys == pages.Keys
      && Ranked(after, rank)
      && Demoted(pages[k], after[k], slugify)
      && (forall j :: j in pages && j != k ==> after[j] == pages[j])
  {
    var item := pages[k].(isHome := false);
    RankedSameParents(pages, pages[k := item], rank);
    SaveNonHomeConsistent(pages, rank, k, item, slugify);
    BuildPathStep(SaveNonHome(pages, rank, k, item, slugify), rank, k);
  }

  /**
   * The store after `save` on a page flagged home: every other page that was
   * home is demoted, every other page is untouched, and the saved page keeps
   * its title and slug while its path is blanked and its parent cleared.
   */
  ghost predicate HomeSaved(before: Store, after: Store, id: int, inst: Page,
                            slugify: string -> string)
  {
    && inst.isHome
    && after.Keys == before.Keys + {id}
    && after[id] == inst.(path := "", parent := None)
    && (forall k :: k in before && k != id && before[k].isHome ==> Demoted(before[k], after[k], slugify))
    && (forall k :: k in before && k != id && !before[k].isHome ==> after[k] == before[k])
  }

  /**
   * After a home save the saved page is the only home page, however many
   * there were before, and every home page is still a root.
   */
  lemma HomeSavedLeavesOneHome(before: Store, after: Store, id: int, inst: Page,
                               slugify: string -> string)
    requires HomeSaved(before, after, id, inst, slugify)
    ensures id in after && after[id].isHome
    ensures forall k :: k in after && k != id ==> !after[k].isHome
    ensures AtMostOneHome(after)
    ensures HomesAreRoots(after)
  {
    forall k | k in after && k != id
      ensures !after[k].isHome
    {
      assert k in before;
    }
  }
}
