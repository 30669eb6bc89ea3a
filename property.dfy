/**
 * The property detail and edit view (app/javascript/src/property/property.jsx).
 *
 * The component's state is the class PropertyView below; each handler of
 * the component is one of its methods. The pure parts of the view are
 * module-level functions: the image carousel's index arithmetic, the
 * picture the slideshow shows, the owner gate, the render outcome and the
 * edit payload that handleSubmit builds from the changed-fields log.
 */
module PropertyPage {
  import opened JsValues
  import opened Fields
  import opened FormData
  import opened Browser

  /**
   * A property as the detail endpoint returns it: every attribute present,
   * `images` an array, `user` the owner object and `id` a number.
   */
  predicate WellFormed(p: Record) {
    (forall f: Field :: f in p) && p[Images].Files? && p[User].Account? && p[Id].Num?
  }

  /** Attributes a text or number input of the edit form can name. */
  predicate TextEditable(f: Field) {
    f != Id && f != User && f != Images
  }

  function ImagesOf(p: Record): seq<Attachment>
    requires WellFormed(p)
  {
    p[Images].items
  }

  // ---------------------------------------------------------------------
  // Image carousel

  lemma {:induction false} MulGrows(d: int, n: int)
    requires d >= 1 && n > 0
    ensures d * n >= n
  {
    if d > 1 {
      MulGrows(d - 1, n);
      assert d * n == (d - 1) * n + n;
    }
  }

  /** Euclidean remainder is determined by any decomposition of its dividend. */
  lemma ModUnique(x: int, n: int, q: int, s: int)
    requires n > 0 && x == q * n + s && 0 <= s < n
    ensures x % n == s
  {
    var d := q - x / n;
    assert x == (x / n) * n + x % n;
    assert d * n == q * n - (x / n) * n;
    assert d * n == x % n - s;
    if d >= 1 {
      MulGrows(d, n);
    } else if d <= -1 {
      MulGrows(-d, n);
    }
  }

  /** `nextImage`: `(currentImageIndex + 1) % images.length`. */
  function NextIndex(i: nat, n: int): (r: nat)
    requires n > 0
    ensures r < n
    ensures i + 1 < n ==> r == i + 1
    ensures i + 1 == n ==> r == 0
  {
    if i + 1 < n then ModUnique(i + 1, n, 0, i + 1); JsRem(i + 1, n)
    else if i + 1 == n then ModUnique(i + 1, n, 1, 0); JsRem(i + 1, n)
    else JsRem(i + 1, n)
  }

  /** `prevImage`: `(currentImageIndex - 1 + images.length) % images.length`. */
  function PrevIndex(i: nat, n: int): (r: nat)
    requires n > 0
    ensures r < n
    ensures 0 < i <= n ==> r == i - 1
    ensures i == 0 ==> r == n - 1
  {
    if 0 < i <= n then ModUnique(i - 1 + n, n, 1, i - 1); JsRem(i - 1 + n, n)
    else if i == 0 then ModUnique(n - 1, n, 0, n - 1); JsRem(i - 1 + n, n)
    else JsRem(i - 1 + n, n)
  }

  /** Going back undoes going forward, and the other way round. */
  lemma PrevUndoesNext(i: nat, n: int)
    requires 0 <= i < n
    ensures PrevIndex(NextIndex(i, n), n) == i
    ensures NextIndex(PrevIndex(i, n), n) == i
  {
  }

  /** The index after pressing "next" k times. */
  function NextTimes(i: nat, n: int, k: nat): (r: nat)
    requires n > 0
  {
    if k == 0 then i else NextIndex(NextTimes(i, n, k - 1), n)
  }

  /** The index after pressing "previous" k times. */
  function PrevTimes(i: nat, n: int, k: nat): (r: nat)
    requires n > 0
  {
    if k == 0 then i else PrevIndex(PrevTimes(i, n, k - 1), n)
  }

  /** Adding one to the dividend moves the remainder one place, wrapping at n. */
  lemma ModSucc(a: int, n: int)
    requires n > 0
    ensures a % n + 1 < n ==> (a + 1) % n == a % n + 1
    ensures a % n + 1 == n ==> (a + 1) % n == 0
  {
    var q, s := a / n, a % n;
    assert a == q * n + s;
    if s + 1 < n {
      ModUnique(a + 1, n, q, s + 1);
    } else {
      assert a + 1 == (q + 1) * n;
      ModUnique(a + 1, n, q + 1, 0);
    }
  }

  /** Taking one from the dividend moves the remainder one place back, wrapping at 0. */
  lemma ModPred(a: int, n: int)
    requires n > 0
    ensures a % n > 0 ==> (a - 1) % n == a % n - 1
    ensures a % n == 0 ==> (a - 1) % n == n - 1
  {
    var q, s := a / n, a % n;
    assert a == q * n + s;
    if s > 0 {
      ModUnique(a - 1, n, q, s - 1);
    } else {
      assert a - 1 == (q - 1) * n + (n - 1);
      ModUnique(a - 1, n, q - 1, n - 1);
    }
  }

  /** k presses of "next" move k places forward, modulo the number of images. */
  lemma {:induction false} NextTimesShifts(i: nat, n: int, k: nat)
    requires 0 <= i < n
    ensures NextTimes(i, n, k) == (i + k) % n
  {
    if k == 0 {
      ModUnique(i, n, 0, i);
    } else {
      NextTimesShifts(i, n, k - 1);
      ModSucc(i + k - 1, n);
    }
  }

  /** k presses of "previous" move k places back, wrapping below zero. */
  lemma {:induction false} PrevTimesShifts(i: nat, n: int, k: nat)
    requires 0 <= i < n
    ensures PrevTimes(i, n, k) == (i - k) % n
  {
    if k == 0 {
      ModUnique(i, n, 0, i);
    } else {
      PrevTimesShifts(i, n, k - 1);
      ModPred(i - k + 1, n);
    }
  }

  /** Pressing "next" once per image comes back to the starting picture. */
  lemma NextCycle(i: nat, n: int)
    requires 0 <= i < n
    ensures NextTimes(i, n, n) == i
    ensures forall k :: 0 < k < n ==> NextTimes(i, n, k) != i
  {
    NextTimesShifts(i, n, n);
    ModUnique(i + n, n, 1, i);
    forall k | 0 < k < n
      ensures NextTimes(i, n, k) != i
    {
      NextTimesShifts(i, n, k);
      if i + k < n {
        ModUnique(i + k, n, 0, i + k);
      } else {
        ModUnique(i + k, n, 1, i + k - n);
      }
    }
  }

  /** Pressing "previous" once per image comes back to the starting picture. */
  lemma PrevCycle(i: nat, n: int)
    requires 0 <= i < n
    ensures PrevTimes(i, n, n) == i
    ensures forall k :: 0 < k < n ==> PrevTimes(i, n, k) != i
  {
    PrevTimesShifts(i, n, n);
    ModUnique(i - n, n, -1, i);
    forall k | 0 < k < n
      ensures PrevTimes(i, n, k) != i
    {
      PrevTimesShifts(i, n, k);
      if i - k >= 0 {
        ModUnique(i - k, n, 0, i - k);
      } else {
        ModUnique(i - k, n, -1, i - k + n);
      }
    }
  }

  // ---------------------------------------------------------------------
  // What render shows

  /** The picture the slideshow shows. */
  datatype Shown =
    | Photo(url: string)           // images[i].url
    | NoUrl                        // images[i] is a picked File; its url is undefined
    | Placeholder(number: Number)  // https://cdn.altcademy.com/assets/images/medium/airbnb_clone/<number>.jpg

  function Minus1(n: Number): Number {
    match n
    case Finite(x) => Finite(x - 1.0)
    case NaN => NaN
  }

  /**
   * `currentImage` in render: `images[i].url` when there are images, the CDN
   * placeholder numbered `id - 1` when there are none. None: `images[i]` is
   * undefined (i past the end) and reading its url throws a TypeError.
   */
  function CurrentImage(images: seq<Attachment>, i: nat, id: Number): (r: Option<Shown>)
    ensures r.None? <==> images != [] && i >= |images|
    ensures (r.Some? && r.value.Placeholder?) <==> images == []
    ensures images == [] ==> r == Some(Placeholder(Minus1(id)))
    ensures i < |images| ==> r == Some(if images[i].Stored? then Photo(images[i].url) else NoUrl)
  {
    if |images| > 0 then
      if i < |images| then
        Some(match images[i] case Stored(u) => Photo(u) case Upload(_) => NoUrl)
      else None
    else Some(Placeholder(Minus1(id)))
  }

  /** What render produces. */
  datatype Screen =
    | LoadingText   // "loading..."
    | Page(image: Shown, arrows: bool, ownerControls: bool, editModal: bool, deleteModal: bool)
    | RenderThrows  // the TypeError of CurrentImage

  /**
   * The Edit/Delete gate: the buttons are produced only when the signed-in
   * username equals the owner's. A null or undefined currentUser (None)
   * never equals a username.
   */
  function OwnerControls(currentUser: Option<string>, owner: string): (shown: bool)
    ensures shown ==> currentUser.Some?
    ensures currentUser.Some? ==> (shown <==> currentUser.value == owner)
  {
    currentUser == Some(owner)
  }

  /** render, from the state it reads. */
  function RenderView(p: Record, loading: bool, index: nat, currentUser: Option<string>,
                      showEdit: bool, showDelete: bool): (s: Screen)
    requires loading || WellFormed(p)
    ensures loading ==> s == LoadingText
    ensures !loading ==> (s == RenderThrows <==> ImagesOf(p) != [] && index >= |ImagesOf(p)|)
    ensures s.Page? ==> (s.ownerControls <==> currentUser == Some(p[User].username))
    ensures s.Page? ==> (s.arrows <==> |ImagesOf(p)| >= 2)
    ensures s.Page? ==> (s.image.Placeholder? <==> ImagesOf(p) == [])
    ensures s.Page? ==> Some(s.image) == CurrentImage(ImagesOf(p), index, p[Id].n)
    ensures s.Page? ==> s.editModal == showEdit && s.deleteModal == showDelete
  {
    if loading then LoadingText
    else
      match CurrentImage(ImagesOf(p), index, p[Id].n)
      case None => RenderThrows
      case Some(img) =>
        Page(img, |ImagesOf(p)| >= 2, OwnerControls(currentUser, p[User].username), showEdit, showDelete)
  }

  /**
   * A file change replaces `images` but keeps currentImageIndex, so picking
   * no more files than the index leaves the index past the end; render then
   * throws.
   */
  lemma UploadCanStrandIndex(p: Record, fs: seq<Attachment>, i: nat, u: Option<string>, e: bool, d: bool)
    requires WellFormed(p) && 0 < |fs| <= i
    ensures RenderView(p[Images := Files(fs)], false, i, u, e, d) == RenderThrows
  {
  }

  // ---------------------------------------------------------------------
  // The edit payload

  /** The attributes the payload loop sends when they occur in changedFields. */
  predicate Sent(f: Field) {
    f != User && f != Id
  }

  /** What one visit of the payload loop adds for one changed field. */
  function EditStep(fd: Form, f: Field, p: Record): Form
    requires WellFormed(p)
  {
    if !Sent(f) then fd
    else if f == Images then fd + FileEntries(ImagesKey, ImagesOf(p))
    else Append(fd, KeyOf(f), Text(p[f]))
  }

  /** The form handleSubmit builds by visiting changedFields in order. */
  function EditForm(changed: seq<Field>, p: Record): Form
    requires WellFormed(p)
  {
    if changed == [] then []
    else EditStep(EditForm(changed[..|changed| - 1], p), changed[|changed| - 1], p)
  }

  /** The payload loop of handleSubmit, appending to a FormData object. */
  method BuildEditForm(changed: seq<Field>, p: Record) returns (form: Form)
    requires WellFormed(p)
    ensures form == EditForm(changed, p)
  {
    form := [];
    var i := 0;
    while i < |changed|
      invariant 0 <= i <= |changed|
      invariant form == EditForm(changed[..i], p)
    {
      var field := changed[i];
      assert changed[..i + 1][..i] == changed[..i];
      if field != User && field != Id {
        if field == Images {
          var items := p[Images].items;
          var j := 0;
          while j < |items|
            invariant 0 <= j <= |items|
            invariant form == EditForm(changed[..i], p) + FileEntries(ImagesKey, items[..j])
          {
            assert items[..j + 1][..j] == items[..j];
            form := Append(form, ImagesKey, Blob(items[j]));
            j := j + 1;
          }
          assert items[..j] == items;
        } else {
          form := Append(form, KeyOf(field), Text(p[field]));
        }
      }
      i := i + 1;
    }
    assert changed[..i] == changed;
  }

  /**
   * A scalar field is sent once per occurrence in changedFields (append, not
   * set), each time with its current value.
   */
  lemma {:induction false} EditFormScalar(changed: seq<Field>, p: Record, f: Field)
    requires WellFormed(p) && Sent(f) && f != Images
    ensures GetAll(EditForm(changed, p), KeyOf(f)) == Copies(Text(p[f]), multiset(changed)[f])
  {
    if changed != [] {
      var init, g := changed[..|changed| - 1], changed[|changed| - 1];
      assert changed == init + [g];
      EditFormScalar(init, p, f);
      var fd := EditForm(init, p);
      if Sent(g) && g == Images {
        ImagesKeyIsNoFieldKey(f);
        GetAllConcat(fd, FileEntries(ImagesKey, ImagesOf(p)));
      } else if Sent(g) && g != f {
        if KeyOf(g) == KeyOf(f) {
          KeyOfInjective(g, f);
        }
      }
    }
  }

  /**
   * Each occurrence of `images` in changedFields sends every file of
   * `images` once, in file order.
   */
  lemma {:induction false} EditFormImages(changed: seq<Field>, p: Record)
    requires WellFormed(p)
    ensures GetAll(EditForm(changed, p), ImagesKey) == Repeat(Blobs(ImagesOf(p)), multiset(changed)[Images])
  {
    if changed != [] {
      var init, g := changed[..|changed| - 1], changed[|changed| - 1];
      assert changed == init + [g];
      EditFormImages(init, p);
      var fd := EditForm(init, p);
      if Sent(g) && g == Images {
        GetAllConcat(fd, FileEntries(ImagesKey, ImagesOf(p)));
      } else if Sent(g) {
        ImagesKeyIsNoFieldKey(g);
      }
    }
  }

  /**
   * No key is sent except those of sent fields that occur in changedFields
   * (and the image key when `images` occurs).
   */
  lemma {:induction false} EditFormNoOtherKey(changed: seq<Field>, p: Record, key: string)
    requires WellFormed(p)
    requires key == ImagesKey ==> Images !in changed
    requires forall f :: f in changed && Sent(f) && f != Images ==> KeyOf(f) != key
    ensures GetAll(EditForm(changed, p), key) == []
  {
    if changed != [] {
      var init, g := changed[..|changed| - 1], changed[|changed| - 1];
      assert changed == init + [g];
      assert forall f :: f in init ==> f in changed;
      EditFormNoOtherKey(init, p, key);
      var fd := EditForm(init, p);
      if Sent(g) && g == Images {
        GetAllConcat(fd, FileEntries(ImagesKey, ImagesOf(p)));
      }
    }
  }

  /** `id` and `user` are never sent, however often they occur in changedFields. */
  lemma EditFormOmitsIdAndUser(changed: seq<Field>, p: Record)
    requires WellFormed(p)
    ensures GetAll(EditForm(changed, p), KeyOf(Id)) == []
    ensures GetAll(EditForm(changed, p), KeyOf(User)) == []
  {
    ImagesKeyIsNoFieldKey(Id);
    ImagesKeyIsNoFieldKey(User);
    forall f | Sent(f) ensures KeyOf(f) != KeyOf(Id) && KeyOf(f) != KeyOf(User) {
      if KeyOf(f) == KeyOf(Id) { KeyOfInjective(f, Id); }
      if KeyOf(f) == KeyOf(User) { KeyOfInjective(f, User); }
    }
    EditFormNoOtherKey(changed, p, KeyOf(Id));
    EditFormNoOtherKey(changed, p, KeyOf(User));
  }

  // ---------------------------------------------------------------------
  // The component

  class PropertyView {
    const propertyId: nat   // props.property_id
    var property: Record
    var loading: bool
    var showEditModal: bool
    var showDeleteModal: bool
    var previewImage: Option<Attachment>
    var changedFields: seq<Field>
    var isAuthenticated: bool
    var currentUser: Option<string>
    var currentImageIndex: nat

    /** Once the property has loaded, the record is a full one. */
    ghost predicate Valid()
      reads this
    {
      loading || WellFormed(property)
    }

    /** The state the constructor sets up: an empty property, still loading. */
    constructor (id: nat)
      ensures Valid() && propertyId == id
      ensures property == map[] && loading
      ensures !showEditModal && !showDeleteModal && previewImage == None
      ensures changedFields == [] && !isAuthenticated && currentUser == None
      ensures currentImageIndex == 0
    {
      propertyId := id;
      property := map[];
      loading := true;
      showEditModal := false;
      showDeleteModal := false;
      previewImage := None;
      changedFields := [];
      isAuthenticated := false;
      currentUser := None;
      currentImageIndex := 0;
    }

    /** componentDidMount: the property fetch resolved with p. */
    method PropertyFetched(p: Record)
      requires WellFormed(p)
      modifies this`property, this`loading
      ensures Valid() && property == p && !loading
    {
      property := p;
      loading := false;
    }

    /** componentDidMount: the authentication check resolved. */
    method AuthChecked(authenticated: bool, username: Option<string>)
      requires Valid()
      modifies this`isAuthenticated, this`currentUser
      ensures Valid() && isAuthenticated == authenticated && currentUser == username
    {
      isAuthenticated := authenticated;
      currentUser := username;
    }

    method OpenEditModal()
      requires Valid()
      modifies this`showEditModal
      ensures Valid() && showEditModal
    {
      showEditModal := true;
    }

    /** Closing the edit modal also forgets the changed fields, then reloads the page. */
    method CloseEditModal() returns (e: Effect)
      requires Valid()
      modifies this`showEditModal, this`changedFields
      ensures Valid() && !showEditModal && changedFields == [] && e == Reload
    {
      showEditModal := false;
      changedFields := [];
      e := Reload;
    }

    method OpenDeleteModal()
      requires Valid()
      modifies this`showDeleteModal
      ensures Valid() && showDeleteModal
    {
      showDeleteModal := true;
    }

    method CloseDeleteModal()
      requires Valid()
      modifies this`showDeleteModal
      ensures Valid() && !showDeleteModal
    {
      showDeleteModal := false;
    }

    /** nextImage; its button is only shown for two or more images. */
    method NextImage()
      requires WellFormed(property) && |ImagesOf(property)| > 0
      modifies this`currentImageIndex
      ensures currentImageIndex == NextIndex(old(currentImageIndex), |ImagesOf(property)|)
      ensures currentImageIndex < |ImagesOf(property)|
    {
      currentImageIndex := JsRem(currentImageIndex + 1, |property[Images].items|);
    }

    /** prevImage; its button is only shown for two or more images. */
    method PrevImage()
      requires WellFormed(property) && |ImagesOf(property)| > 0
      modifies this`currentImageIndex
      ensures currentImageIndex == PrevIndex(old(currentImageIndex), |ImagesOf(property)|)
      ensures currentImageIndex < |ImagesOf(property)|
    {
      var n := |property[Images].items|;
      currentImageIndex := JsRem(currentImageIndex - 1 + n, n);
    }

    /**
     * handleInputChange. A text or number input stores its value under its
     * name; a file input stores its FileList under `images` and previews the
     * first file. Either way the input's name is appended to changedFields.
     * With an empty FileList, createObjectURL(undefined) throws inside the
     * state updater (threw), so the state object is not updated. A file change
     * keeps currentImageIndex, so too few files leave render throwing.
     */
    method HandleInputChange(ev: InputEvent) returns (threw: bool)
      requires WellFormed(property)
      requires ev.TextInput? ==> TextEditable(ev.name)
      modifies this`property, this`previewImage, this`changedFields
      ensures WellFormed(property)
      ensures threw <==> ev.FileInput? && ev.files == []
      ensures threw ==>
                property == old(property) && previewImage == old(previewImage)
                && changedFields == old(changedFields)
      ensures !threw ==> changedFields == old(changedFields) + [ev.name]
      ensures !threw && ev.TextInput? ==>
                property == old(property)[ev.name := InputValue(ev.name, ev.value, ev.parsed)]
                && previewImage == old(previewImage)
      ensures !threw && ev.FileInput? ==>
                property == old(property)[Images := Files(Uploads(ev.files))]
                && previewImage == Some(Upload(ev.files[0]))
      ensures !threw && ev.FileInput? && !loading && |ev.files| <= currentImageIndex ==>
                Render() == RenderThrows
    {
      threw := false;
      match ev
      case FileInput(name, files) =>
        if files == [] {
          return true;
        }
        property := property[Images := Files(Uploads(files))];
        previewImage := Some(Upload(files[0]));
        changedFields := changedFields + [name];
      case TextInput(name, value, parsed) =>
        property := property[name := InputValue(name, value, parsed)];
        changedFields := changedFields + [name];
    }

    /** handleDelete: the request it issues. */
    method HandleDelete() returns (req: Request)
      requires Valid()
      ensures req == DeleteProperty(propertyId)
    {
      req := DeleteProperty(propertyId);
    }

    /** The delete request succeeded: close the modal and go to the home page. */
    method DeleteSucceeded() returns (e: Effect)
      requires Valid()
      modifies this`showDeleteModal
      ensures Valid() && !showDeleteModal && e == NavigateTo("/")
    {
      showDeleteModal := false;
      e := NavigateTo("/");
    }

    /** handleSubmit: build the payload from changedFields, show loading, issue the PATCH. */
    method HandleSubmit() returns (req: Request)
      requires WellFormed(property)
      modifies this`loading
      ensures Valid() && loading
      ensures req == Patch(propertyId, EditForm(changedFields, property))
    {
      var form := BuildEditForm(changedFields, property);
      loading := true;
      req := Patch(propertyId, form);
    }

    /** The PATCH succeeded with the updated property: reset the edit state and reload. */
    method SubmitSucceeded(updated: Record) returns (e: Effect)
      requires WellFormed(updated)
      modifies this`property, this`showEditModal, this`changedFields, this`loading
      ensures Valid() && property == updated && !showEditModal && changedFields == [] && !loading
      ensures e == Reload
    {
      property := updated;
      showEditModal := false;
      changedFields := [];
      loading := false;
      e := Reload;
    }

    /** render */
    function Render(): Screen
      reads this
      requires Valid()
    {
      RenderView(property, loading, currentImageIndex, currentUser, showEditModal, showDeleteModal)
    }
  }
}
