/**
 * Request-time page lookup: the catch-all URL pattern of
 * juscms/pages/urls.py and `BaseView.get` of juscms/pages/views.py, which
 * fetches the page whose stored path equals the captured string and renders
 * that page's own template with the page as the only context entry.
 */
module PageViews {
  import opened Wrappers
  import opened PageTree

  /** What `BaseView.get` hands back to the server. */
  datatype Response =
    | Rendered(template: string, instance: Page)  // `render(request, instance.template, {'instance': instance})`
    | NotFound                                     // `Http404`, or no URL pattern matched
    | MultipleObjectsReturned                      // `get()` matched more than one row: a server error

  /** Two different stored pages share the path `path`. */
  ghost predicate PathShared(pages: Store, path: string)
  {
    exists a, b :: a in pages && b in pages && a != b && pages[a].path == path && pages[b].path == path
  }

  /**
   * `get_object_or_404(Page, path=path)` followed by the render call: an
   * exact, case-sensitive comparison with no normalisation of the path, and
   * no change to any page.
   */
  ghost function Get(pages: Store, path: string): (r: Response)
    ensures r.NotFound? <==> forall k :: k in pages ==> pages[k].path != path
    ensures r.MultipleObjectsReturned? <==> PathShared(pages, path)
    ensures r.Rendered? ==> r.instance.path == path && r.template == r.instance.template
    ensures r.Rendered? ==> exists k :: k in pages && pages[k] == r.instance
  {
    if forall k :: k in pages ==> pages[k].path != path then NotFound
    else if PathShared(pages, path) then MultipleObjectsReturned
    else
      var k :| k in pages && pages[k].path == path;
      Rendered(pages[k].template, pages[k])
  }

  /** A page whose path no other page shares is served by a request for exactly that path. */
  lemma GetUniquePath(pages: Store, id: int)
    requires id in pages
    requires forall k :: k in pages && k != id ==> pages[k].path != pages[id].path
    ensures Get(pages, pages[id].path) == Rendered(pages[id].template, pages[id])
  {
    assert !PathShared(pages, pages[id].path);
  }

  /**
   * The pattern `^(?P<path>.*)$` as Python's regular expressions read it:
   * `.` does not match a newline and `$` also matches just before a final
   * newline, so a string with a newline anywhere but at its end never
   * reaches the view.
   */
  function CapturePath(url: string): (r: Option<string>)
    ensures '\n' !in url ==> r == Some(url)
    ensures r.Some? ==> '\n' !in r.value && r.value <= url && |url| - |r.value| <= 1
    ensures r.None? ==> exists i :: 0 <= i < |url| - 1 && url[i] == '\n'
  {
    if '\n' !in url then Some(url)
    else if url[|url| - 1] == '\n' && '\n' !in url[..|url| - 1] then Some(url[..|url| - 1])
    else
      var i :| 0 <= i < |url| && url[i] == '\n';
      assert i < |url| - 1 || '\n' in url[..|url| - 1] by {
        if i == |url| - 1 {
          assert '\n' in url[..|url| - 1];
        }
      }
      None
  }

  /**
   * A request for `url`: the URL pattern, then the view. A URL without a
   * newline is looked up exactly as given, and a page whose path holds a
   * newline is never served.
   */
  ghost function Serve(pages: Store, url: string): (r: Response)
    ensures '\n' !in url ==> r == Get(pages, url)
    ensures r.Rendered? ==> '\n' !in r.instance.path
  {
    match CapturePath(url)
    case None => NotFound
    case Some(path) => Get(pages, path)
  }

  /** A page whose path has no newline and is shared with no other page is served at that path. */
  lemma ServeUniquePath(pages: Store, id: int)
    requires id in pages && '\n' !in pages[id].path
    requires forall k :: k in pages && k != id ==> pages[k].path != pages[id].path
    ensures Serve(pages, pages[id].path) == Rendered(pages[id].template, pages[id])
  {
    GetUniquePath(pages, id);
  }

  /**
   * A page saved through the non-home branch into an empty table, as the
   * repository's test does with the title 'Test Page', is served at its own
   * stored path.
   */
  lemma {:induction false} SavedPageIsServed(slugify: string -> string, template: string)
    ensures
      var inst := Page("Test Page", "", "", None, false, template);
      && Ranked(map[1 := inst], map[1 := 0])
      && var after := SaveNonHome(map[], map[1 := 0], 1, inst, slugify);
         && 1 in after
         && after[1].path == slugify("Test Page") + "/"
         && Get(after, after[1].path) == Rendered(template, after[1])
         && ('\n' !in slugify("Test Page") ==> Serve(after, after[1].path) == Rendered(template, after[1]))
  {
    var inst := Page("Test Page", "", "", None, false, template);
    assert map[][1 := inst] == map[1 := inst];
    SaveNonHomeConsistent(map[], map[1 := 0], 1, inst, slugify);
    var after := SaveNonHome(map[], map[1 := 0], 1, inst, slugify);
    BuildPathStep(after, map[1 := 0], 1);
    GetUniquePath(after, 1);
    if '\n' !in slugify("Test Page") {
      ServeUniquePath(after, 1);
    }
  }
}
