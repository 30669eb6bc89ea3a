/**
 * The attributes of a property listing as the views name them, the records
 * that map them to values, and the multipart keys they are sent under.
 */
module Fields {
  import opened JsValues

  /** The attributes a property record has in the detail and create views. */
  datatype Field =
    | Id | Title | Description | PricePerNight | City | Country | PropertyType
    | MaxGuests | Bedrooms | Beds | Baths | Images | User

  /** A property record or draft: a JavaScript object keyed by attribute. */
  type Record = map<Field, Value>

  /** The attribute's name as a JavaScript object key and form input name. */
  function Name(f: Field): string {
    match f
    case Id => "id"
    case Title => "title"
    case Description => "description"
    case PricePerNight => "price_per_night"
    case City => "city"
    case Country => "country"
    case PropertyType => "property_type"
    case MaxGuests => "max_guests"
    case Bedrooms => "bedrooms"
    case Beds => "beds"
    case Baths => "baths"
    case Images => "images"
    case User => "user"
  }

  /** The attribute a name denotes, if any: the inverse of Name. */
  function FieldNamed(s: string): (r: Option<Field>)
    ensures r.Some? ==> Name(r.value) == s
  {
    if s == "id" then Some(Id)
    else if s == "title" then Some(Title)
    else if s == "description" then Some(Description)
    else if s == "price_per_night" then Some(PricePerNight)
    else if s == "city" then Some(City)
    else if s == "country" then Some(Country)
    else if s == "property_type" then Some(PropertyType)
    else if s == "max_guests" then Some(MaxGuests)
    else if s == "bedrooms" then Some(Bedrooms)
    else if s == "beds" then Some(Beds)
    else if s == "baths" then Some(Baths)
    else if s == "images" then Some(Images)
    else if s == "user" then Some(User)
    else None
  }

  lemma NameRoundTrip(f: Field)
    ensures FieldNamed(Name(f)) == Some(f)
  {
  }

  /** Two attributes never share a name. */
  lemma NameInjective(f: Field, g: Field)
    requires Name(f) == Name(g)
    ensures f == g
  {
    NameRoundTrip(f);
    NameRoundTrip(g);
  }

  /** The multipart key a scalar attribute is sent under: `property[<name>]`. */
  function KeyOf(f: Field): string {
    "property[" + Name(f) + "]"
  }

  /** The multipart key each image file is sent under. */
  const ImagesKey: string := "property[images][]"

  /** The name inside `property[...]` can be read back from the key. */
  lemma KeyOfInner(f: Field)
    ensures |KeyOf(f)| == |Name(f)| + 10
    ensures KeyOf(f)[9..|KeyOf(f)| - 1] == Name(f)
  {
  }

  /** Different attributes are sent under different keys. */
  lemma KeyOfInjective(f: Field, g: Field)
    requires KeyOf(f) == KeyOf(g)
    ensures f == g
  {
    KeyOfInner(f);
    KeyOfInner(g);
    NameInjective(f, g);
  }

  /** No scalar attribute is sent under the image key. */
  lemma ImagesKeyIsNoFieldKey(f: Field)
    ensures KeyOf(f) != ImagesKey
  {
    KeyOfInner(f);
    NameRoundTrip(f);
    assert FieldNamed("images][") == None;
    assert ImagesKey[9..17] == "images][";
  }
}
