# juscms page tree, lookup, layout and single-instance rules in Dafny

This project models the bookkeeping core of juscms, a small Django content
management system:

- **Page tree** (`page_tree.dfy`, module `PageTree`): page rows keyed by id,
  each with a title, slug, path, optional parent and home flag. `Ancestors`
  plays the part of `get_ancestors(include_self=True)`, and `BuildPath`
  joins the slugs root first, each followed by `/`. `SaveNonHome` is the
  table a non-home `Page.save` leaves behind once its post-save handler has
  run. `HomeSaved` describes what a home save leaves behind.
- **Page lifecycle** (`page_lifecycle.dfy`, module `PageLifecycle`): class
  `PageStore` holds the table as a `map` plus the ids in query order.
  `Save` runs the `save` override (its two branches are `SaveOrdinary` and
  `SaveHome`) and then calls the `update_path` handler directly. The handler
  re-enters `Save` once when the path was empty or stale. The home branch's demotion loop calls `Save` on every other home
  page. `BuildPath` is the loop of `build_path` over the ancestors found by
  walking the parent references.
- **Request-time lookup** (`page_views.dfy`, module `PageViews`): the
  catch-all URL pattern, then `get_object_or_404(Page, path=path)` and the
  render call.
- **Row and Chunk labels** (`page_content.dfy`, module `PageContent`).
- **Layout blocks** (`layout_models.dfy`, module `LayoutModels`): `Header`
  and `Footer`, whose `save` fills an empty slug and persists nothing.
- **Single-instance guards** (`single_instance.dfy`, module
  `SingleInstance`): `clean` and `has_add_permission`.

Django's `slugify` filter is foreign code. It is passed in as a function
value, `slugify: string -> string`, and no property of it is assumed.
Acyclicity of the parent references is guaranteed by django-mptt, which is
not part of this model. It is represented by a ghost rank: every parent has a
smaller rank than its child. The rank is a precondition of saving a non-home
page and an invariant of the store. A second store invariant says that every
page flagged home has no parent; every home save clears the parent, so each
save keeps it.

Four behaviours of the code shape the model:

- `save` overwrites every non-home slug with `slugify(title)`, so a slug a
  user edited is replaced.
- A changed path is never propagated to descendants.
- `save` does not reject an empty title.
- Nothing makes `path` unique. When two pages share a path, the lookup
  raises `MultipleObjectsReturned`.

## Model

| member | source | states |
|---|---|---|
| PageTree.Ancestors | juscms/pages/models.py:120 | the ancestor list starts at a root, ends with the page itself, and each entry is the parent of the next |
| PageTree.ChainUnique | juscms/pages/models.py:120 | there is only one such ancestor list for a page, whatever rank witnesses acyclicity |
| PageTree.BuildPathStep | juscms/pages/models.py:119-123 | a page's path is its parent's path followed by its slug and '/'; a root's path is its slug and '/' |
| PageTree.BuildPath | juscms/pages/models.py:119-123 | a built path is never empty and always ends with '/'; `BuildPathStep`, `BuildPathEndsWithSlug` and `BuildPathOfShape` state the rest |
| PageTree.BuildPathEndsWithSlug | juscms/pages/models.py:119-123 | a built path ends with the page's own slug and '/' |
| PageTree.BuildPathOfShape | juscms/pages/models.py:119-123 | a path depends only on ids, parents and slugs, so writing any other field leaves every path unchanged |
| PageTree.SaveNonHome | juscms/pages/models.py:144-151 | after a non-home save and its handler, the page is stored under its id, its slug is slugify(title) whether it was empty, equal or user-edited, every field but slug and path is the instance's own, and no other page changed |
| PageTree.SaveNonHomeConsistent | juscms/pages/models.py:297-303 | after a non-home save and its handler, the stored path equals the path built from the new tree, and the tree stays acyclic |
| PageTree.SaveNonHomeIdempotent | juscms/pages/models.py:297-303 | saving an already saved non-home page again leaves the table unchanged: the handler finds the path in place and stops |
| PageTree.DescendantLeftStale | juscms/pages/models.py:284-303 | renaming a parent from "Home" to "Welcome" leaves its child's stored path "home/about/" while the built path becomes "welcome/about/" |
| PageTree.SaveNonHomeKeepsOneHome | juscms/pages/models.py:144-151 | a non-home save never adds a home page: "at most one home page" and "every home page is a root" both survive it |
| PageTree.DemotionStep | juscms/pages/models.py:155-158 | re-saving a parentless former home page with the flag cleared gives slug slugify(title) and path slug + '/', keeps title, parent and template, and changes no other page |
| PageTree.RankedDetached | juscms/pages/models.py:159-165 | clearing a page's parent and writing it keeps the parent relation acyclic |
| PageTree.HomeSavedLeavesOneHome | juscms/pages/models.py:152-165 | after a home save the saved page is the only home page, however many home pages existed before, and every home page is still a root |
| PageLifecycle.PageStore.BuildPath | juscms/pages/models.py:106-123 | the loop over the ancestors found by walking parents returns exactly the built path of the tree |
| PageLifecycle.PageStore.Persist | juscms/pages/models.py:151 | the row write replaces only the saved row and appends its id when the row is new |
| PageLifecycle.PageStore.Save | juscms/pages/models.py:135-165 | non-home: the table becomes SaveNonHome of the old table, so slug = slugify(title) and path = built path; home: every other home page is demoted, everything else is untouched, the saved page keeps title and slug, loses its parent and gets path '', and it is the only home page; both keep the store invariants |
| PageLifecycle.PageStore.SaveOrdinary | juscms/pages/models.py:144-151 | the non-home branch plus its handler leaves exactly SaveNonHome of the old table, with slug = slugify(title) and path = built path |
| PageLifecycle.PageStore.SaveHome | juscms/pages/models.py:152-165 | the home branch leaves a table satisfying HomeSaved, in which the saved page is the only home page |
| PageLifecycle.PageStore.DemoteOtherHomes | juscms/pages/models.py:153-158 | every page stored as home other than the saved one is re-saved as a non-home page and ends up demoted: flag cleared, slug slugify(title), path slug + '/', title, parent and template kept; every other page is untouched |
| PageLifecycle.PageStore.UpdatePath | juscms/pages/models.py:284-303 | a home page is left alone; a non-home page ends with the built path in place, whether its path was empty, stale or already right |
| PageViews.Get | juscms/pages/views.py:25-33 | NotFound exactly when no page's path equals the request string; MultipleObjectsReturned exactly when two pages share it; otherwise a stored page with exactly that path is rendered with its own template |
| PageViews.GetUniquePath | juscms/pages/views.py:25 | a page whose path no other page shares is the one served for that exact path |
| PageViews.CapturePath | juscms/pages/urls.py:7 | a request without a newline reaches the view whole; otherwise only a single trailing newline is dropped, and any other newline makes the pattern fail |
| PageViews.Serve | juscms/pages/urls.py:7 | a request without a newline is looked up exactly as given, and a page whose path holds a newline is never served |
| PageViews.ServeUniquePath | juscms/pages/views.py:25-33 | a request for a path without a newline that exactly one page has renders that page with its own template |
| PageViews.SavedPageIsServed | juscms/pages/tests.py:8-31 | a non-home page titled 'Test Page' saved into an empty table gets path slugify('Test Page') + '/', the view renders it for that path, and so does a full request when the slug has no newline |
| PageContent.IdText | juscms/pages/models.py:229 | an unsaved block shows exactly "None"; a saved one shows decimal digits that read back as its id |
| PageContent.Decimal | juscms/pages/models.py:229 | the id text is a non-empty string of digits with no leading zero other than "0" itself |
| PageContent.DecimalValue | juscms/pages/models.py:229 | reading the written digits back gives the number: the decimal text loses nothing |
| PageContent.LabelCases | juscms/pages/models.py:227-235 | the label starts with the block kind, and which of its four forms it takes tells exactly which of html_ids and html_class are set; a set id appears after the prefix and a set class ends the label |
| PageContent.RowLabel | juscms/pages/models.py:227-235 | every row label starts with "Row"; `LabelCases` gives its four forms |
| PageContent.ChunkLabelAsWritten | juscms/pages/models.py:273-281 | the chunk label as written; `ChunkClassOnlyLabelledAsRow` and `ChunkLabelCorrected` state how it behaves |
| PageContent.ChunkClassOnlyLabelledAsRow | juscms/pages/models.py:278-279 | as written, every chunk with only a class gets the label a row would get, which does not start with "Chunk" |
| PageContent.ChunkLabel | juscms/pages/models.py:273-281 | with the class-only case corrected, every chunk label starts with "Chunk" |
| PageContent.ChunkLabelCorrected | juscms/pages/models.py:273-281 | the corrected chunk label differs from the written one exactly in the class-only case |
| LayoutModels.FilledSlug | juscms/layout/models.py:50-51 | the slug a layout save leaves; `FilledSlugKeepsSetSlug` and `FilledSlugIdempotent` state its properties |
| LayoutModels.FilledSlugKeepsSetSlug | juscms/layout/models.py:50-51 | a non-empty slug is kept even when the name changes; an empty slug becomes slugify(name) |
| LayoutModels.FilledSlugIdempotent | juscms/layout/models.py:50-51 | a second save leaves the slug as the first save left it |
| LayoutModels.Layout.Save | juscms/layout/models.py:45-51 | only the in-memory slug may change, and only from empty to slugify(name); nothing else changes, so nothing is persisted |
| LayoutModels.Layout.Header | juscms/layout/models.py:62-68 | a header stores the fields it is given; its editable template is the one given, or header.html when none is given |
| LayoutModels.Layout.Footer | juscms/layout/models.py:86-92 | a footer stores the fields it is given; its editable template is the one given, or footer.html when none is given |
| SingleInstance.CleanAsWritten | juscms/jusutils/mixins.py:17-23 | as written, clean passes exactly when no row is stored; with rows stored, a new instance gets the ValidationError "Can only create one <model>" and an id-carrying instance raises a non-validation exception |
| SingleInstance.CleanAsWrittenAgreesWithClean | juscms/jusutils/mixins.py:17-23 | the written and the corrected clean give the same outcome exactly when the instance has no id or no row is stored |
| SingleInstance.CleanAsWrittenRejectsStoredInstance | juscms/jusutils/mixins.py:17-20 | as written, cleaning the one stored instance with its own id raises instead of passing |
| SingleInstance.Clean | juscms/jusutils/mixins.py:17-23 | passes exactly when nothing is stored or the instance is the stored row; otherwise raises ValidationError "Can only create one <model>" |
| SingleInstance.CleanKeepsOneInstance | juscms/jusutils/mixins.py:17-23 | an instance that passes leaves at most one row once saved, and editing the stored row passes |
| SingleInstance.HasAddPermission | juscms/jusutils/mixins.py:36-39 | adding is allowed exactly when no row exists and the base admin allows it |
| SingleInstance.AddPermissionAgreesWithClean | juscms/jusutils/mixins.py:36-39 | the add button is offered exactly when a new instance would pass clean |

## Findings

| source | as written | input that shows it | evidently intended | confidence | as-written member | corrected member |
|---|---|---|---|---|---|---|
| juscms/pages/models.py:279 | the class-only label of a Chunk reads "Row - Class: …" | a chunk with empty html_ids and html_class "x" | "Chunk - Class: x", like the other three Chunk labels | not executed; high | PageContent.ChunkClassOnlyLabelledAsRow | PageContent.ChunkLabelCorrected |
| juscms/jusutils/mixins.py:19 | `model.objects.get()[:1].id`: `get()` returns one row, which cannot be sliced, or raises when there are several | an instance with id 1 of a model that mixes in `SingleInstanceMixin`, whose one stored row has id 1 | compare with the id of the stored row and pass | not executed; high | SingleInstance.CleanAsWrittenRejectsStoredInstance | SingleInstance.Clean |

## Left out

- Persistence, querysets and signal dispatch: the table is a `map`, the row write is `Persist`, and the post-save handler is a direct call after the write.
- django-mptt's nested-set numbers, `move_to` and `order_insertion_by`: `move_to` leaves parent references unchanged, and paths do not depend on sibling order. The demotion loop visits rows in the store's id order, while the real query orders by tree position. The contract does not depend on that order, because every home page is a root.
- Cycle detection, which belongs to django-mptt, and dangling parent references, which the row write would reject with an integrity error: a parent that exists and acyclicity are a precondition (the ghost rank) and a store invariant, not checked errors.
- The body of `slugify`: it is a parameter with no assumed properties, so idempotence and the exact character set are not modelled.
- Descendant path propagation and path uniqueness: neither exists in this code, and `DescendantLeftStale` shows the consequence.
- Field `max_length` limits and the non-blank title: the database and the forms enforce them, not `save`.
- `get_absolute_url`, `reverse`, template rendering, and the `render_header` / `render_footer` template tags: library calls and queries. A render is represented by the template name and the page.
- The URL prefix consumed by the project's root URL configuration: that configuration is not part of this model. `CapturePath` starts from the string the catch-all pattern sees.
- The base admin's `has_add_permission` and the request: represented by a boolean parameter.
- Admin registrations, migrations, `Page.__str__` and the layout column labels: configuration, schema or display only.
- `Header.__str__` and `Footer.__str__` (juscms/layout/models.py:74-75 and 98-99) return the name unchanged. There is nothing to state about them beyond that, so they have no member.
- Negative primary keys in labels: ids are natural numbers, as an auto-increment key gives.
- Concurrency and transactions: the code has none.
