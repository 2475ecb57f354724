/**
 * The post creation form: its five text fields, the payload it submits, and
 * the mutation flow around a submission (disabled while pending; on success
 * the list key is invalidated and then the parent is told; on failure
 * nothing happens but the form becoming submittable again).
 */
module CreateBlog {
  import opened Wrappers
  import opened Builtins
  import opened Api
  import opened Query
  import BlogList
  import BlogDetail

  datatype Field = Title | Category | Description | Content | CoverImage

  /** The form's controlled values; `category` is the raw comma-separated text. */
  datatype FormData = FormData(
    title: string, category: string, description: string, content: string, coverImage: string)

  /** Every field starts empty. */
  const EmptyForm := FormData("", "", "", "", "")

  function Get(f: FormData, k: Field): string {
    match k
    case Title => f.title
    case Category => f.category
    case Description => f.description
    case Content => f.content
    case CoverImage => f.coverImage
  }

  /** `setFormData(prev => ({ ...prev, [k]: v }))`: field `k` becomes `v`, every other field keeps its value. */
  function Set(f: FormData, k: Field, v: string): (r: FormData)
    ensures Get(r, k) == v
    ensures forall other :: other != k ==> Get(r, other) == Get(f, other)
  {
    match k
    case Title => f.(title := v)
    case Category => f.(category := v)
    case Description => f.(description := v)
    case Content => f.(content := v)
    case CoverImage => f.(coverImage := v)
  }

  lemma EmptyFormIsEmpty()
    ensures forall k :: Get(EmptyForm, k) == ""
  {
  }

  /** The fields marked `required`: the browser does not submit the form while one of them is empty. */
  predicate RequiredFilled(f: FormData)
    ensures RequiredFilled(f) <==> forall k :: k != CoverImage ==> Get(f, k) != ""
  {
    assert Get(f, Title) == f.title && Get(f, Category) == f.category;
    assert Get(f, Description) == f.description && Get(f, Content) == f.content;
    f.title != "" && f.category != "" && f.description != "" && f.content != ""
  }

  // ---------------------------------------------------------------------------
  // the payload
  // ---------------------------------------------------------------------------

  /** `c.trim().toUpperCase()`. */
  function Normalize(c: string): (r: string)
    ensures IsTrimmed(r) && NoLower(r)
    ensures |r| <= |c|
  {
    var t := Trim(c);
    var r := ToUpper(t);
    ToUpperKeepsWhitespace(t);
    r
  }

  /** Normalizing twice is normalizing once. */
  lemma NormalizeIdempotent(c: string)
    ensures Normalize(Normalize(c)) == Normalize(c)
  {
    var n := Normalize(c);
    TrimOfTrimmed(n);
    ToUpperFixedIff(n);
  }

  /** Normalizing keeps a comma out of a piece that had none. */
  lemma NormalizeKeepsCommaOut(c: string)
    requires ',' !in c
    ensures ',' !in Normalize(c)
  {
    var t := Trim(c);
    TrimIsSlice(c);
    ToUpperKeepsNonLetter(t, ',');
    assert Normalize(c) == ToUpper(t);
  }

  /** `category.split(',').map(c => c.trim().toUpperCase())`. */
  function Categories(raw: string): (cs: seq<string>)
    ensures |cs| == multiset(raw)[','] + 1
    ensures forall k :: 0 <= k < |cs| ==> cs[k] == Normalize(Split(raw, ',')[k])
    ensures forall k :: 0 <= k < |cs| ==> IsTrimmed(cs[k]) && NoLower(cs[k]) && ',' !in cs[k]
  {
    var pieces := Split(raw, ',');
    forall k | 0 <= k < |pieces| ensures ',' !in Normalize(pieces[k]) {
      NormalizeKeepsCommaOut(pieces[k]);
    }
    seq(|pieces|, k requires 0 <= k < |pieces| => Normalize(pieces[k]))
  }

  /** An empty category text gives one empty category. */
  lemma EmptyCategoryText()
    ensures Categories("") == [""]
  {
  }

  /** Joining the categories with commas and normalizing again changes nothing. */
  lemma {:induction false} CategoriesIdempotent(raw: string)
    ensures Categories(Join(Categories(raw), ',')) == Categories(raw)
  {
    var cs := Categories(raw);
    SplitJoin(cs, ',');
    var again := Categories(Join(cs, ','));
    forall k | 0 <= k < |cs| ensures again[k] == cs[k] {
      NormalizeIdempotent(Split(raw, ',')[k]);
    }
  }

  /**
   * The draft a submission sends: the form's text fields unchanged, the
   * categories normalized, `date` the submission time, and no `id`,
   * read time, author or tags.
   */
  function Payload(f: FormData, now: string): (d: Draft)
    ensures d.title == f.title && d.description == f.description
    ensures d.content == f.content && d.coverImage == f.coverImage
    ensures d.category == Categories(f.category) && d.date == now
    ensures d.readTime.None? && d.author.None? && d.tags.None?
  {
    Draft(f.title, Categories(f.category), f.description, now, None, f.coverImage, f.content, None, None)
  }

  // ---------------------------------------------------------------------------
  // keys and the submit button
  // ---------------------------------------------------------------------------

  /** The key invalidated after a successful creation, `['blogs']`. */
  const InvalidatedKey: QueryKey := [Str("blogs")]

  /** Invalidation reaches the list and no post's detail. */
  lemma InvalidationReachesListOnly(id: Option<string>)
    ensures InvalidatedKey == BlogList.ListKey
    ensures Matches(InvalidatedKey, BlogList.ListKey)
    ensures !Matches(InvalidatedKey, BlogDetail.DetailKey(id))
  {
    assert InvalidatedKey[0] != BlogDetail.DetailKey(id)[0];
  }

  datatype SubmitButton = SubmitButton(caption: string, disabled: bool)

  /** The submit button is disabled, and says so, exactly while the mutation is pending. */
  function SubmitButtonFor(pending: bool): (b: SubmitButton)
    ensures b.disabled == pending
    ensures b.caption == if pending then "Publishing..." else "Publish Story"
  {
    if pending then SubmitButton("Publishing...", true) else SubmitButton("Publish Story", false)
  }

  // ---------------------------------------------------------------------------
  // the form component
  // ---------------------------------------------------------------------------

  /** What the form asks of the world, in the order it asks. */
  datatype Effect =
    | Mutate(draft: Draft)
    | Invalidate(key: QueryKey)
    | NotifySuccess
    | NotifyCancel

  class CreateBlogForm {
    var form: FormData
    var pending: bool
    /** Every call the form has made to the mutation, the query client and its parent, oldest first. */
    var effects: seq<Effect>

    constructor ()
      ensures form == EmptyForm && !pending && effects == []
    {
      form := EmptyForm;
      pending := false;
      effects := [];
    }

    /** An `onChange` of one input. */
    method Edit(k: Field, v: string)
      modifies this
      ensures form == Set(old(form), k, v)
      ensures pending == old(pending) && effects == old(effects)
    {
      form := Set(form, k, v);
    }

    /**
     * Submitting the form at time `now`: nothing happens while the button is
     * disabled or a required field is empty; otherwise the payload is handed
     * to the mutation, which is pending from then on.
     */
    method Submit(now: string) returns (sent: bool)
      modifies this
      ensures sent <==> !old(pending) && RequiredFilled(old(form))
      ensures form == old(form)
      ensures pending == (old(pending) || sent)
      ensures effects == old(effects) + (if sent then [Mutate(Payload(old(form), now))] else [])
    {
      sent := !SubmitButtonFor(pending).disabled && RequiredFilled(form);
      if sent {
        effects := effects + [Mutate(Payload(form, now))];
        pending := true;
      }
    }

    /**
     * The pending mutation settles. On success the list key is invalidated
     * and only then is the parent told; on failure neither happens.
     */
    method Settle(succeeded: bool)
      requires pending
      modifies this
      ensures !pending && form == old(form)
      ensures effects == old(effects) + (if succeeded then [Invalidate(InvalidatedKey), NotifySuccess] else [])
    {
      if succeeded {
        effects := effects + [Invalidate(InvalidatedKey)];
        effects := effects + [NotifySuccess];
      }
      pending := false;
    }

    /** The Dismiss button: tells the parent, submits nothing. */
    method Dismiss()
      modifies this
      ensures form == old(form) && pending == old(pending)
      ensures effects == old(effects) + [NotifyCancel]
    {
      effects := effects + [NotifyCancel];
    }
  }
}
