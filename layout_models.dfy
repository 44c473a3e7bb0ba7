/**
 * The layout blocks of juscms/layout/models.py. `Header` and `Footer` share
 * the fields and the `save` override of `AbstractLayout`; they differ only
 * in their default template. The override fills in a missing slug and never
 * calls the inherited save, so nothing is written to the database.
 */
module LayoutModels {
  import opened Wrappers

  /** The slug `AbstractLayout.save` leaves: a slug already set is kept, an empty one is derived from the name. */
  function FilledSlug(slug: string, name: string, slugify: string -> string): string
  {
    if slug == "" then slugify(name) else slug
  }

  /** A slug already set survives a changed name; only an empty slug is derived from the name. */
  lemma FilledSlugKeepsSetSlug(slug: string, name: string, newName: string, slugify: string -> string)
    ensures slug != "" ==> FilledSlug(slug, newName, slugify) == slug
    ensures slug == "" ==> FilledSlug(slug, name, slugify) == slugify(name)
  {
  }

  /** Saving twice leaves the slug the first save left. */
  lemma FilledSlugIdempotent(slug: string, name: string, slugify: string -> string)
    ensures FilledSlug(FilledSlug(slug, name, slugify), name, slugify) == FilledSlug(slug, name, slugify)
  {
  }

  /** A `Header` or `Footer` instance in memory. */
  class Layout {
    var name: string
    var slug: string
    var htmlIds: string
    var htmlClass: string
    /** An editable field; `None` at construction stands for the keyword left out, which gives the field's default. */
    var template: string

    constructor Header(name: string, slug: string, htmlIds: string, htmlClass: string, template: Option<string>)
      ensures this.name == name && this.slug == slug
      ensures this.htmlIds == htmlIds && this.htmlClass == htmlClass
      ensures template.Some? ==> this.template == template.value
      ensures template.None? ==> this.template == "header.html"
    {
      this.name, this.slug, this.htmlIds, this.htmlClass := name, slug, htmlIds, htmlClass;
      this.template := if template.Some? then template.value else "header.html";
    }

    constructor Footer(name: string, slug: string, htmlIds: string, htmlClass: string, template: Option<string>)
      ensures this.name == name && this.slug == slug
      ensures this.htmlIds == htmlIds && this.htmlClass == htmlClass
      ensures template.Some? ==> this.template == template.value
      ensures template.None? ==> this.template == "footer.html"
    {
      this.name, this.slug, this.htmlIds, this.htmlClass := name, slug, htmlIds, htmlClass;
      this.template := if template.Some? then template.value else "footer.html";
    }

    /**
     * `AbstractLayout.save`: only the in-memory slug may change, and only
     * when it was empty; no stored record changes.
     */
    method Save(slugify: string -> string)
      modifies this`slug
      ensures slug == FilledSlug(old(slug), name, slugify)
      ensures old(slug) != "" ==> slug == old(slug)
    {
      if slug == "" {
        slug := slugify(name);
      }
    }
  }
}
