/** The two "new newsletter" editors: app/admin/newsletters/new/page.tsx and
    app/super-admin/newsletters/new/page.tsx. Both keep the same form state and
    build the same document; they differ in how a title edit treats the slug, in
    where they go after saving, and in which role they render for
    (`Common.IsPrivileged`, `Common.IsSuperAdmin`). */
module NewsletterEditor {
  import opened Common
  import opened Slug

  datatype EditorKind = AdminEditor | SuperAdminEditor

  /** The document `handleSubmit` adds to the `newsletters` collection; `now` stands
      for every `serverTimestamp()`. */
  datatype NewsletterDoc = NewsletterDoc(
    title: string,
    slug: string,
    content: string,
    heroImageUrl: string,
    status: string,
    authorId: Option<string>,
    authorEmail: Option<string>,
    createdAt: int,
    updatedAt: int,
    publishedAt: Option<int>)

  /** How `handleSubmit` ends: the document was added and the page moves to the
      list, or the upload or the write threw and an alert was shown. */
  datatype SubmitResult = Created(doc: NewsletterDoc, redirect: string) | Failed

  const Published: string := "published"

  /** The slug after a title edit to `input`: the admin editor always regenerates
      it, the super-admin editor only while it is empty. */
  function NextSlug(kind: EditorKind, slug: string, input: string): string {
    if kind == AdminEditor || slug == "" then GenerateSlug(input) else slug
  }

  /** Where `handleSubmit` goes after a successful save. */
  function ListPath(kind: EditorKind): string {
    if kind == AdminEditor then "/admin/newsletters" else "/super-admin/newsletters"
  }

  class NewsletterForm {
    const kind: EditorKind
    var title: string
    var slug: string
    var content: string
    var status: string
    /** The chosen image file, if any, by name. */
    var imageFile: Option<string>

    constructor (kind: EditorKind)
      ensures this.kind == kind
      ensures title == "" && slug == "" && content == "" && status == "draft" && imageFile.None?
    {
      this.kind := kind;
      title, slug, content, status, imageFile := "", "", "", "draft", None;
    }

    /** `handleTitleChange`. */
    method TitleChange(input: string)
      modifies this
      ensures title == input
      ensures slug == NextSlug(kind, old(slug), input)
      ensures content == old(content) && status == old(status) && imageFile == old(imageFile)
    {
      title := input;
      if kind == AdminEditor || slug == "" {
        slug := GenerateSlug(input);
      }
    }

    /** The slug field's own `onChange`: a manual edit, kept as typed. */
    method SlugChange(input: string)
      modifies this
      ensures slug == input
      ensures title == old(title) && content == old(content) && status == old(status) && imageFile == old(imageFile)
    {
      slug := input;
    }

    /** `handleImageChange`: the first chosen file replaces the image; an empty
        choice keeps the one before. */
    method ImageChange(files: seq<string>)
      modifies this
      ensures imageFile == if files != [] then Some(files[0]) else old(imageFile)
      ensures title == old(title) && slug == old(slug) && content == old(content) && status == old(status)
    {
      if files != [] {
        imageFile := Some(files[0]);
      }
    }

    /** `handleSubmit`: `upload` is what the image upload answers (`None` if it
        threw; it is only called when a file was chosen), `added` whether `addDoc`
        succeeded. The form is only submitted once its `required` inputs are filled:
        title and content in both editors, the slug too in the admin editor. */
    function Submit(author: Option<Account>, upload: Option<string>, now: int, added: bool): (r: SubmitResult)
      reads this
      requires title != "" && content != ""
      requires kind == AdminEditor ==> slug != ""
      ensures r.Created? <==> (imageFile.None? || upload.Some?) && added
      ensures r.Created? ==> r.redirect == ListPath(kind)
      ensures r.Created? ==> r.doc.title == title && r.doc.slug == slug && r.doc.content == content
      ensures r.Created? ==> r.doc.status == status
      ensures r.Created? ==> r.doc.title != "" && r.doc.content != "" && (kind == AdminEditor ==> r.doc.slug != "")
      ensures r.Created? ==> (r.doc.publishedAt.Some? <==> status == Published)
      ensures r.Created? ==> r.doc.heroImageUrl == if imageFile.Some? then upload.value else ""
      ensures r.Created? ==> r.doc.authorId == (if author.Some? then Some(author.value.uid) else None)
      ensures r.Created? ==> r.doc.authorEmail == (if author.Some? then author.value.email else None)
      ensures r.Created? ==> r.doc.createdAt == now && r.doc.updatedAt == now && r.doc.publishedAt.GetOr(now) == now
    {
      if imageFile.Some? && upload.None? then Failed
      else if !added then Failed
      else
        var hero := if imageFile.Some? then upload.value else "";
        Created(
          NewsletterDoc(title, slug, content, hero, status,
            if author.Some? then Some(author.value.uid) else None,
            if author.Some? then author.value.email else None,
            now, now,
            if status == Published then Some(now) else None),
          ListPath(kind))
    }
  }

  // ---------------------------------------------------------------------------
  // The slug over a run of title edits

  /** The slug after the title edits `inputs`, one after the other. */
  function SlugAfter(kind: EditorKind, slug: string, inputs: seq<string>): string
    decreases |inputs|
  {
    if inputs == [] then slug else SlugAfter(kind, NextSlug(kind, slug, inputs[0]), inputs[1..])
  }

  /** The slug of the first title in `inputs` whose slug is not empty. */
  function FirstNonEmptySlug(inputs: seq<string>): string {
    if inputs == [] then ""
    else if GenerateSlug(inputs[0]) != "" then GenerateSlug(inputs[0])
    else FirstNonEmptySlug(inputs[1..])
  }

  /** In the admin editor the slug always follows the latest title: a manual slug
      edit is lost at the next title edit. */
  lemma {:induction false} AdminSlugFollowsTitle(slug: string, inputs: seq<string>)
    requires inputs != []
    ensures SlugAfter(AdminEditor, slug, inputs) == GenerateSlug(inputs[|inputs| - 1])
    decreases |inputs|
  {
    var next := NextSlug(AdminEditor, slug, inputs[0]);
    assert SlugAfter(AdminEditor, slug, inputs) == SlugAfter(AdminEditor, next, inputs[1..]);
    if |inputs| > 1 {
      AdminSlugFollowsTitle(next, inputs[1..]);
      assert inputs[1..][|inputs| - 2] == inputs[|inputs| - 1];
    }
  }

  /** In the super-admin editor a non-empty slug is never changed by a title edit,
      so from an empty form the slug freezes at the first title that gives a
      non-empty one. */
  lemma {:induction false} SuperAdminSlugFreezes(slug: string, inputs: seq<string>)
    ensures slug != "" ==> SlugAfter(SuperAdminEditor, slug, inputs) == slug
    ensures slug == "" ==> SlugAfter(SuperAdminEditor, slug, inputs) == FirstNonEmptySlug(inputs)
    decreases |inputs|
  {
    if inputs != [] {
      SuperAdminSlugFreezes(NextSlug(SuperAdminEditor, slug, inputs[0]), inputs[1..]);
    }
  }

  /** Whatever the editor, the slug a title edit leaves is a slug or the value
      already in the field. */
  lemma TitleEditGivesSlug(kind: EditorKind, slug: string, input: string)
    ensures NextSlug(kind, slug, input) == slug || IsSlug(NextSlug(kind, slug, input))
    ensures kind == AdminEditor ==> IsSlug(NextSlug(kind, slug, input))
  {
  }
}
