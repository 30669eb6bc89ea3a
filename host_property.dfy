/**
 * The host view that creates a listing
 * (app/javascript/src/host_property/hostProperty.jsx).
 *
 * The component's state is the class HostView below. The draft it edits
 * has a fixed set of keys; the completeness flag is a pure predicate over
 * the draft's values, and the create payload is built by a loop over the
 * draft's keys.
 */
module HostPropertyPage {
  import opened JsValues
  import opened Fields
  import opened FormData
  import opened Browser

  /**
   * The draft's keys in the order the constructor writes them, which is the
   * order Object.keys and Object.values visit them.
   */
  const DraftKeys: seq<Field> :=
    [Title, Description, PricePerNight, City, Country, PropertyType,
     MaxGuests, Bedrooms, Beds, Baths, Images]

  /** The draft keys are every attribute but the id and the owner. */
  predicate DraftField(f: Field) {
    f != Id && f != User
  }

  lemma DraftKeysAreDraftFields()
    ensures forall f :: f in DraftKeys <==> DraftField(f)
  {
  }

  /** A draft holds exactly the draft keys, with `images` an array or a FileList. */
  predicate IsDraft(d: Record) {
    (forall f :: f in d <==> DraftField(f)) && d[Images].Files?
  }

  /** The draft the constructor sets up. */
  const InitialDraft: Record :=
    map[Title := Str(""), Description := Str(""), PricePerNight := Num(Finite(1.0)),
        City := Str(""), Country := Str(""), PropertyType := Str(""),
        MaxGuests := Num(Finite(1.0)), Bedrooms := Num(Finite(1.0)),
        Beds := Num(Finite(1.0)), Baths := Num(Finite(1.0)), Images := Files([])]

  /** The text attributes of a draft; every other draft key but `images` is numeric. */
  predicate TextKey(f: Field) {
    f in {Title, Description, City, Country, PropertyType}
  }

  /** The initial draft: empty texts, 1 for every number, no images. */
  lemma InitialDraftDefaults()
    ensures IsDraft(InitialDraft)
    ensures forall f :: f in InitialDraft && TextKey(f) ==> InitialDraft[f] == Str("")
    ensures forall f :: f in InitialDraft && !TextKey(f) && f != Images ==> InitialDraft[f] == Num(Finite(1.0))
    ensures InitialDraft[Images] == Files([])
  {
  }

  // ---------------------------------------------------------------------
  // Form completeness

  /** The test checkFormCompletion applies to each value: `v !== '' && v !== 0 && v.length !== 0`. */
  function Filled(v: Value): (r: bool)
    ensures v.Str? ==> (r <==> v.s != "")
    ensures v.Num? ==> (r <==> v.n != Finite(0.0))
    ensures v.Files? ==> (r <==> v.items != [])
    ensures v.Account? ==> r
  {
    NotEmptyString(v) && NotZero(v) && Length(v) != Some(0)
  }

  /** checkFormCompletion: `Object.values(property).every(...)`. */
  function FormComplete(d: Record): bool {
    forall f :: f in d ==> Filled(d[f])
  }

  /** The form is complete iff every draft key passes the test, the last one being a non-empty image list. */
  lemma {:induction false} FormCompleteMeans(d: Record)
    requires IsDraft(d)
    ensures FormComplete(d) <==> (forall i :: 0 <= i < |DraftKeys| ==> Filled(d[DraftKeys[i]]))
    ensures FormComplete(d) ==> d[Images].items != []
  {
    assert DraftKeys[10] == Images;
    if FormComplete(d) {
      forall i | 0 <= i < |DraftKeys| ensures Filled(d[DraftKeys[i]]) {
        assert DraftKeys[i] in d;
      }
    }
    if forall i :: 0 <= i < |DraftKeys| ==> Filled(d[DraftKeys[i]]) {
      forall f | f in d ensures Filled(d[f]) {
        assert f in DraftKeys;
        var i :| 0 <= i < |DraftKeys| && DraftKeys[i] == f;
      }
    }
  }

  /**
   * The initial draft is incomplete: its numbers pass the test, but its
   * empty texts and its empty `images` fail it.
   */
  lemma InitialDraftIncomplete()
    ensures !FormComplete(InitialDraft)
    ensures forall f :: f in InitialDraft ==> (Filled(InitialDraft[f]) <==> !TextKey(f) && f != Images)
  {
    assert !Filled(InitialDraft[Images]);
  }

  /**
   * How typed values fare: a price of 0 is parsed to the number 0 and fails,
   * but every other input stores its text, so a typed "0" passes; a price
   * that parses to NaN passes too.
   */
  lemma TypedValuesAndCompleteness(parsed: Number)
    ensures !Filled(InputValue(PricePerNight, "0", Finite(0.0)))
    ensures forall f :: f != PricePerNight ==> Filled(InputValue(f, "0", parsed))
    ensures Filled(InputValue(PricePerNight, "", NaN))
    ensures forall f :: f != PricePerNight ==> !Filled(InputValue(f, "", parsed))
  {
  }

  // ---------------------------------------------------------------------
  // The create payload

  /** What one visit of the payload loop adds for one draft key. */
  function CreateStep(fd: Form, key: Field, d: Record): Form
    requires IsDraft(d) && key in d
  {
    if key == Images then fd + FileEntries(ImagesKey, d[Images].items)
    else Set(fd, KeyOf(key), Text(d[key]))
  }

  /** The form the payload loop builds after visiting keys in order. */
  function CreateFormOver(keys: seq<Field>, d: Record): Form
    requires IsDraft(d) && forall f :: f in keys ==> DraftField(f)
  {
    if keys == [] then []
    else CreateStep(CreateFormOver(keys[..|keys| - 1], d), keys[|keys| - 1], d)
  }

  /** The form handleSubmit posts. */
  function CreateForm(d: Record): Form
    requires IsDraft(d)
  {
    CreateFormOver(DraftKeys, d)
  }

  /** The payload loop of handleSubmit: `set` for scalars, `append` per image file. */
  method BuildCreateForm(d: Record) returns (form: Form)
    requires IsDraft(d)
    ensures form == CreateForm(d)
  {
    var keys := DraftKeys;
    DraftKeysAreDraftFields();
    form := [];
    var i := 0;
    while i < |keys|
      invariant 0 <= i <= |keys|
      invariant form == CreateFormOver(keys[..i], d)
    {
      var key := keys[i];
      assert keys[..i + 1][..i] == keys[..i];
      if key == Images {
        var items := d[Images].items;
        var j := 0;
        while j < |items|
          invariant 0 <= j <= |items|
          invariant form == CreateFormOver(keys[..i], d) + FileEntries(ImagesKey, items[..j])
        {
          assert items[..j + 1][..j] == items[..j];
          form := Append(form, ImagesKey, Blob(items[j]));
          j := j + 1;
        }
        assert items[..j] == items;
      } else {
        form := Set(form, KeyOf(key), Text(d[key]));
      }
      i := i + 1;
    }
    assert keys[..i] == keys;
  }

  /** After visiting keys, a visited scalar key holds its value once (set, not append). */
  lemma {:induction false} CreateFormOverScalar(keys: seq<Field>, d: Record, f: Field)
    requires IsDraft(d) && (forall g :: g in keys ==> DraftField(g)) && f != Images
    ensures GetAll(CreateFormOver(keys, d), KeyOf(f)) == if f in keys then [Text(d[f])] else []
  {
    if keys != [] {
      var init, g := keys[..|keys| - 1], keys[|keys| - 1];
      assert keys == init + [g];
      CreateFormOverScalar(init, d, f);
      var fd := CreateFormOver(init, d);
      if g == Images {
        ImagesKeyIsNoFieldKey(f);
        GetAllConcat(fd, FileEntries(ImagesKey, d[Images].items));
      } else if g != f && KeyOf(g) == KeyOf(f) {
        KeyOfInjective(g, f);
      }
    }
  }

  /** After visiting keys, the image key holds the files once per visit of `images`, in order. */
  lemma {:induction false} CreateFormOverImages(keys: seq<Field>, d: Record)
    requires IsDraft(d) && forall g :: g in keys ==> DraftField(g)
    ensures GetAll(CreateFormOver(keys, d), ImagesKey) == Repeat(Blobs(d[Images].items), multiset(keys)[Images])
  {
    if keys != [] {
      var init, g := keys[..|keys| - 1], keys[|keys| - 1];
      assert keys == init + [g];
      CreateFormOverImages(init, d);
      var fd := CreateFormOver(init, d);
      var items := d[Images].items;
      if g == Images {
        assert CreateFormOver(keys, d) == fd + FileEntries(ImagesKey, items);
        GetAllConcat(fd, FileEntries(ImagesKey, items));
        assert multiset(keys)[Images] == multiset(init)[Images] + 1;
      } else {
        ImagesKeyIsNoFieldKey(g);
        assert CreateFormOver(keys, d) == Set(fd, KeyOf(g), Text(d[g]));
        assert multiset(keys)[Images] == multiset(init)[Images];
      }
    }
  }

  /** After visiting keys, no key is present but the visited keys' and the image key. */
  lemma {:induction false} CreateFormOverNoOtherKey(keys: seq<Field>, d: Record, key: string)
    requires IsDraft(d) && forall g :: g in keys ==> DraftField(g)
    requires key != ImagesKey && forall g :: g in keys ==> KeyOf(g) != key
    ensures GetAll(CreateFormOver(keys, d), key) == []
  {
    if keys != [] {
      var init, g := keys[..|keys| - 1], keys[|keys| - 1];
      assert keys == init + [g];
      CreateFormOverNoOtherKey(init, d, key);
      var fd := CreateFormOver(init, d);
      if g == Images {
        GetAllConcat(fd, FileEntries(ImagesKey, d[Images].items));
      }
    }
  }

  /** The create payload holds every scalar draft key exactly once, with its value. */
  lemma CreateFormScalars(d: Record)
    requires IsDraft(d)
    ensures forall f :: DraftField(f) && f != Images ==> GetAll(CreateForm(d), KeyOf(f)) == [Text(d[f])]
  {
    DraftKeysAreDraftFields();
    forall f | DraftField(f) && f != Images
      ensures GetAll(CreateForm(d), KeyOf(f)) == [Text(d[f])]
    {
      CreateFormOverScalar(DraftKeys, d, f);
    }
  }

  lemma ImagesOnceInDraftKeys()
    ensures multiset(DraftKeys)[Images] == 1
  {
    var init := DraftKeys[..10];
    assert DraftKeys == init + [Images];
    assert Images !in init;
  }

  /** The create payload holds the image files in order under `property[images][]`. */
  lemma CreateFormImages(d: Record)
    requires IsDraft(d)
    ensures GetAll(CreateForm(d), ImagesKey) == Blobs(d[Images].items)
  {
    DraftKeysAreDraftFields();
    CreateFormOverImages(DraftKeys, d);
    ImagesOnceInDraftKeys();
    var b := Blobs(d[Images].items);
    assert Repeat(b, 1) == Repeat(b, 0) + b;
  }

  /** The create payload holds no key but those of the draft attributes and the image key. */
  lemma CreateFormNoOtherKey(d: Record, key: string)
    requires IsDraft(d)
    requires key != ImagesKey && forall f :: DraftField(f) ==> KeyOf(f) != key
    ensures GetAll(CreateForm(d), key) == []
  {
    DraftKeysAreDraftFields();
    CreateFormOverNoOtherKey(DraftKeys, d, key);
  }

  // ---------------------------------------------------------------------
  // The component

  /** What render produces. */
  datatype HostScreen =
    | LoginPrompt(loginUrl: string)   // "Please log in to host a property."
    | CreateFormScreen(property: Record, previewImage: Option<Attachment>, completeForm: bool)

  class HostView {
    var property: Record
    var authenticated: bool
    var loading: bool
    var previewImage: Option<Attachment>
    var completeForm: bool

    /** The draft keeps its keys, and completeForm agrees with the draft. */
    ghost predicate Valid()
      reads this
    {
      IsDraft(property) && completeForm == FormComplete(property)
    }

    constructor ()
      ensures Valid()
      ensures property == InitialDraft && !authenticated && loading
      ensures previewImage == None && !completeForm
    {
      property := InitialDraft;
      authenticated := false;
      loading := true;
      previewImage := None;
      completeForm := false;
      InitialDraftDefaults();
      InitialDraftIncomplete();
    }

    /** componentDidMount: the authentication check resolved. */
    method AuthChecked(isAuthenticated: bool)
      requires Valid()
      modifies this`authenticated, this`loading
      ensures Valid() && authenticated == isAuthenticated && !loading
    {
      authenticated := isAuthenticated;
      loading := false;
    }

    /** checkFormCompletion */
    method CheckFormCompletion()
      requires IsDraft(property)
      modifies this`completeForm
      ensures Valid()
    {
      completeForm := FormComplete(property);
    }

    /**
     * handleInputChange. A text or number input stores its value under its
     * name; a file input stores its FileList under `images` and previews the
     * first file. Then completeForm is recomputed. With an empty FileList,
     * createObjectURL(undefined) throws inside the state updater (threw), so
     * the state object is not updated and the completion callback does not run.
     */
    method HandleInputChange(ev: InputEvent) returns (threw: bool)
      requires Valid()
      requires ev.TextInput? ==> DraftField(ev.name) && ev.name != Images
      modifies this`property, this`previewImage, this`completeForm
      ensures Valid()
      ensures threw <==> ev.FileInput? && ev.files == []
      ensures threw ==>
                property == old(property) && previewImage == old(previewImage)
                && completeForm == old(completeForm)
      ensures !threw && ev.TextInput? ==>
                property == old(property)[ev.name := InputValue(ev.name, ev.value, ev.parsed)]
                && previewImage == old(previewImage)
      ensures !threw && ev.FileInput? ==>
                property == old(property)[Images := Files(Uploads(ev.files))]
                && previewImage == Some(Upload(ev.files[0]))
      ensures completeForm == FormComplete(property)
    {
      if ev.FileInput? {
        if ev.files == [] {
          return true;
        }
        property := property[Images := Files(Uploads(ev.files))];
        previewImage := Some(Upload(ev.files[0]));
      } else {
        property := property[ev.name := InputValue(ev.name, ev.value, ev.parsed)];
      }
      threw := false;
      CheckFormCompletion();
    }

    /** handleSubmit: the POST it issues. */
    method HandleSubmit() returns (req: Request)
      requires IsDraft(property)
      ensures req == Post(CreateForm(property))
    {
      var form := BuildCreateForm(property);
      req := Post(form);
    }

    /** The POST succeeded: go to the home page. */
    method SubmitSucceeded() returns (e: Effect)
      ensures e == NavigateTo("/")
    {
      e := NavigateTo("/");
    }

    /**
     * render, given window.location.pathname. Without authentication the
     * view is the login prompt, never the form.
     */
    function Render(path: string): (s: HostScreen)
      reads this
      ensures s.LoginPrompt? <==> !authenticated
      ensures !authenticated ==> s.loginUrl == "/login?redirect_url=" + path
      ensures authenticated ==> s == CreateFormScreen(property, previewImage, completeForm)
    {
      if !authenticated then LoginPrompt("/login?redirect_url=" + path)
      else CreateFormScreen(property, previewImage, completeForm)
    }
  }
}
