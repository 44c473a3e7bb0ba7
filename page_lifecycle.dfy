/**
 * `Page.save` and its `update_path` post-save handler
 * (juscms/pages/models.py) over a mutable page table. The handler is called
 * directly after each write, as the signal dispatcher would; its nested
 * `instance.save()` re-enters `Save` once and then stops.
 */
module PageLifecycle {
  import opened Wrappers
  import opened PageTree

  class PageStore {
    /** The stored `Page` rows. */
    var pages: Store
    /** The ids of the stored rows, in the order they were first written. */
    var ids: seq<int>
    /** Acyclicity witness for the parent references. */
    ghost var rank: map<int, nat>
    /** Django's `slugify` filter; nothing is assumed about it. */
    const slugify: string -> string

    ghost predicate Valid()
      reads this
    {
      && Ranked(pages, rank)
      && HomesAreRoots(pages)
      && (forall i :: 0 <= i < |ids| ==> ids[i] in pages)
      && (forall k :: k in pages ==> k in ids)
      && (forall i, j :: 0 <= i < j < |ids| ==> ids[i] != ids[j])
    }

    constructor (slugify: string -> string)
      ensures Valid() && pages == map[] && this.slugify == slugify
    {
      pages := map[];
      ids := [];
      rank := map[];
      this.slugify := slugify;
    }

    /**
     * `Page.build_path`: collects the ancestors by walking the parent
     * references, then appends each one's slug and '/' to an accumulator,
     * root first.
     */
    method BuildPath(id: int) returns (path: string)
      requires Valid() && id in pages
      ensures path == PageTree.BuildPath(pages, rank, id)
    {
      var chain := [id];
      var cur := id;
      while pages[cur].parent.Some?
        invariant cur in pages && |chain| >= 1 && chain[0] == cur
        invariant Ancestors(pages, rank, id) == Ancestors(pages, rank, cur) + chain[1..]
        decreases rank[cur]
      {
        var up := pages[cur].parent.value;
        assert Ancestors(pages, rank, cur) == Ancestors(pages, rank, up) + [cur];
        chain := [up] + chain;
        cur := up;
      }
      assert chain == Ancestors(pages, rank, id);
      path := "";
      var i := 0;
      while i < |chain|
        invariant 0 <= i <= |chain|
        invariant path == JoinSlugs(pages, chain[..i])
      {
        assert chain[..i + 1][..i] == chain[..i];
        path := path + pages[chain[i]].slug + "/";
        i := i + 1;
      }
      assert chain[..i] == chain;
    }

    /** The model's own `super().save()`: writes one row, appending its id when the row is new. */
    method Persist(id: int, rec: Page, ghost newRank: map<int, nat>)
      requires Valid() && Ranked(pages[id := rec], newRank)
      requires rec.isHome ==> rec.parent.None?
      modifies this
      ensures Valid() && pages == old(pages)[id := rec] && rank == newRank
      ensures ids == if id in old(pages) then old(ids) else old(ids) + [id]
    {
      if id !in pages {
        ids := ids + [id];
      }
      pages := pages[id := rec];
      rank := newRank;
    }

    /** Whether the handler that follows a save of `inst` will save the page once more. */
    ghost function SaveMeasure(id: int, inst: Page, newRank: map<int, nat>): nat
      reads this
    {
      if inst.isHome then 2
      else
        var slugged := inst.(slug := slugify(inst.title));
        if Ranked(pages[id := slugged], newRank)
           && slugged.path == PageTree.BuildPath(pages[id := slugged], newRank, id)
        then 0 else 1
    }

    /** Whether the handler will save the stored page once more. */
    ghost function HandlerMeasure(id: int): nat
      reads this
    {
      if id in pages && Ranked(pages, rank) && !pages[id].isHome
         && pages[id].path != PageTree.BuildPath(pages, rank, id)
      then 1 else 0
    }

    /**
     * `Page.save` on the instance `inst` stored under `id`, followed by the
     * post-save handler. A non-home page gets `slug := slugify(title)` and
     * the path built from the tree; a home page demotes every other home
     * page, loses its parent and gets the empty path.
     */
    method Save(id: int, inst: Page, ghost newRank: map<int, nat>)
      requires Valid()
      requires !inst.isHome ==> Ranked(pages[id := inst], newRank)
      modifies this
      ensures Valid()
      ensures ids == if id in old(pages) then old(ids) else old(ids) + [id]
      ensures !inst.isHome ==> rank == newRank && pages == SaveNonHome(old(pages), newRank, id, inst, slugify)
      ensures inst.isHome ==> HomeSaved(old(pages), pages, id, inst, slugify)
      ensures id in pages
      ensures !inst.isHome ==> pages[id].slug == slugify(inst.title) && pages[id].path == PageTree.BuildPath(pages, rank, id)
      ensures inst.isHome ==> forall k :: k in pages ==> (pages[k].isHome <==> k == id)
      decreases SaveMeasure(id, inst, newRank), 2
    {
      if !inst.isHome {
        SaveOrdinary(id, inst, newRank);
      } else {
        SaveHome(id, inst);
      }
    }

    /** The `else` branch of `Page.save`: the slug is rederived from the title, then the handler fixes the path. */
    method SaveOrdinary(id: int, inst: Page, ghost newRank: map<int, nat>)
      requires Valid() && !inst.isHome && Ranked(pages[id := inst], newRank)
      modifies this
      ensures Valid()
      ensures ids == if id in old(pages) then old(ids) else old(ids) + [id]
      ensures rank == newRank && pages == SaveNonHome(old(pages), newRank, id, inst, slugify)
      ensures id in pages && pages[id].slug == slugify(inst.title) && pages[id].path == PageTree.BuildPath(pages, rank, id)
      decreases SaveMeasure(id, inst, newRank), 1
    {
      var newSlug := slugify(inst.title);
      var slug := inst.slug;
      if slug == "" {
        slug := newSlug;
      } else if slug != newSlug {
        slug := newSlug;
      }
      ghost var slugged := inst.(slug := newSlug);
      assert inst.(slug := slug) == slugged;
      RankedSameParents(pages[id := inst], pages[id := slugged], newRank);
      Persist(id, inst.(slug := slug), newRank);
      ghost var written := pages;
      assert written == old(pages)[id := slugged];
      ghost var built := PageTree.BuildPath(written, newRank, id);
      UpdatePath(id);
      assert pages == written[id := slugged.(path := built)];
      OverwriteRow(old(pages), id, slugged, slugged.(path := built));
      SaveNonHomeConsistent(old(pages), newRank, id, inst, slugify);
    }

    /**
     * The `if self.is_home:` branch of `Page.save`. Both arms of
     * `if current_home:` blank the path and clear the parent; with no stored
     * home page the demotion loop simply has nothing to do.
     */
    method SaveHome(id: int, inst: Page)
      requires Valid() && inst.isHome
      modifies this
      ensures Valid()
      ensures ids == if id in old(pages) then old(ids) else old(ids) + [id]
      ensures HomeSaved(old(pages), pages, id, inst, slugify)
      ensures id in pages && forall k :: k in pages ==> (pages[k].isHome <==> k == id)
      decreases 2, 1
    {
      DemoteOtherHomes(id);
      ghost var demoted := pages;
      RankedDetached(pages, rank, id, inst.(path := "", parent := None));
      Persist(id, inst.(path := "", parent := None), rank[id := 0]);
      UpdatePath(id);
      assert pages == demoted[id := inst.(path := "", parent := None)];
      HomeSavedLeavesOneHome(old(pages), pages, id, inst, slugify);
    }

    /**
     * The demotion loop of a home save: every page stored with the home flag,
     * other than `id`, is re-saved with the flag cleared. The loop walks the
     * rows in first-write order, where the real query orders by tree position;
     * the contract does not depend on the order.
     */
    method DemoteOtherHomes(id: int)
      requires Valid()
      modifies this
      ensures Valid() && rank == old(rank) && ids == old(ids) && pages.Keys == old(pages).Keys
      ensures forall k :: k in old(pages) && k != id && old(pages)[k].isHome ==> Demoted(old(pages)[k], pages[k], slugify)
      ensures forall k :: k in old(pages) && (k == id || !old(pages)[k].isHome) ==> pages[k] == old(pages)[k]
      decreases 2, 0
    {
      var snapshot := pages;
      for i := 0 to |ids|
        invariant Valid() && rank == old(rank) && ids == old(ids) && snapshot == old(pages)
        invariant HomesAreRoots(snapshot)
        invariant pages.Keys == snapshot.Keys
        invariant forall k :: k in snapshot && (k == id || !snapshot[k].isHome || k in ids[i..]) ==> pages[k] == snapshot[k]
        invariant forall k :: k in snapshot && k != id && snapshot[k].isHome && k !in ids[i..] ==> Demoted(snapshot[k], pages[k], slugify)
      {
        var k := ids[i];
        assert k in ids[i..];
        if snapshot[k].isHome && k != id {
          DemotionStep(pages, rank, k, slugify);
          Save(k, snapshot[k].(isHome := false), rank);
        }
        forall k' | k' in ids[i + 1..] ensures k' != k && k' in ids[i..] {
          var j :| i + 1 <= j < |ids| && ids[j] == k';
        }
      }
    }

    /**
     * The `update_path` post-save handler for the page stored under `id`.
     * A non-home page whose path is empty or differs from the built path gets
     * the built path and is saved again; a home page is left alone.
     */
    method UpdatePath(id: int)
      requires Valid() && id in pages
      requires !pages[id].isHome ==> pages[id].slug == slugify(pages[id].title)
      modifies this
      ensures Valid() && rank == old(rank) && ids == old(ids)
      ensures old(pages)[id].isHome ==> pages == old(pages)
      ensures !old(pages)[id].isHome ==>
        pages == old(pages)[id := old(pages)[id].(path := PageTree.BuildPath(old(pages), rank, id))]
      decreases HandlerMeasure(id), 0
    {
      var p := pages[id];
      if !p.isHome {
        var built: string;
        var resave: bool;
        if p.path == "" {
          // `move_to(parent)` only renumbers the nested-set columns; parents are unchanged.
          built := BuildPath(id);
          resave := true;
        } else {
          built := BuildPath(id);
          resave := p.path != built;
        }
        if resave {
          var q := p.(path := built);
          assert q.(slug := slugify(q.title)) == q;
          RankedSameParents(pages, pages[id := q], rank);
          BuildPathOfShape(pages, rank, pages[id := q], rank, id);
          Save(id, q, rank);
        } else {
          assert pages[id := p.(path := built)] == pages;
        }
      }
    }
  }
}
