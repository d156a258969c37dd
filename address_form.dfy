/** The address form's state and handlers (src/components/address/address-form.tsx):
    the default values, the `onChange` handlers (three of which strip
    non-digits), `handlePlanetChange`, and `onSubmit`, which validates and
    then either updates the record being edited or adds a new one. */
module AddressForm {
  import opened Types
  import opened AddressSchema
  import opened Store
  import opened Seqs

  /** `defaultValues` of a new form: Earth, shipping, label "Casa", country
      "Brazil", every other field empty. */
  const DefaultValues: Address :=
    Address("", Earth, Shipping, "Casa", "", "", Some(""), Some("Brazil"), Some(""), Some(""), Some(""), Some(""))

  /* ---------------------------------------------------------------------- */
  /* Field access                                                            */
  /* ---------------------------------------------------------------------- */

  /** The current value of a text field (the three common ones are always present). */
  function FieldValue(v: Address, f: Field): Option<string> {
    match f
    case Label => Some(v.labelText)
    case Name => Some(v.name)
    case Phone => Some(v.phone)
    case AddressLine => v.addressLine
    case Country => v.country
    case State => v.state
    case City => v.city
    case ZipCode => v.zipCode
    case MarsLot => v.marsLot
  }

  /** `field.onChange(s)`: sets one field and nothing else. */
  function WithField(v: Address, f: Field, s: string): (w: Address)
    ensures FieldValue(w, f) == Some(s)
    ensures forall g :: g != f ==> FieldValue(w, g) == FieldValue(v, g)
    ensures w.id == v.id && w.planetType == v.planetType && w.addressType == v.addressType
  {
    match f
    case Label => v.(labelText := s)
    case Name => v.(name := s)
    case Phone => v.(phone := s)
    case AddressLine => v.(addressLine := Some(s))
    case Country => v.(country := Some(s))
    case State => v.(state := Some(s))
    case City => v.(city := Some(s))
    case ZipCode => v.(zipCode := Some(s))
    case MarsLot => v.(marsLot := Some(s))
  }

  /** The inputs whose `onChange` strips non-digits before storing. */
  predicate IsDigitField(f: Field) {
    f == Phone || f == ZipCode || f == MarsLot
  }

  /** What an input's `onChange` stores for the typed text. */
  function Normalize(f: Field, raw: string): (s: string)
    ensures IsDigitField(f) ==> AllDigits(s) && |s| <= |raw|
    ensures !IsDigitField(f) ==> s == raw
  {
    if IsDigitField(f) then StripNonDigits(raw) else raw
  }

  /** The inputs on screen for the selected planet: the Earth group only for
      Earth, the lot only for Mars. They are exactly the keys the planet's
      schema checks. */
  predicate Rendered(f: Field, p: PlanetType)
    ensures Rendered(f, p) <==> f in SchemaFields(p)
  {
    match f
    case Label | Name | Phone => true
    case MarsLot => p == Mars
    case _ => p == Earth
  }

  /* ---------------------------------------------------------------------- */
  /* What the handlers keep true of the form values                          */
  /* ---------------------------------------------------------------------- */

  predicate Cleared(o: Option<string>) {
    o == None || o == Some("")
  }

  /** The group the tag does not select holds no text. */
  predicate InactiveGroupCleared(v: Address) {
    match v.planetType
    case Earth => Cleared(v.marsLot)
    case Mars => Cleared(v.addressLine) && Cleared(v.country) && Cleared(v.state) && Cleared(v.city) && Cleared(v.zipCode)
  }

  predicate DigitsOnly(o: Option<string>) {
    o.Some? ==> AllDigits(o.value)
  }

  /** The phone, zip and lot hold digits only, as their inputs store them. */
  predicate DigitFieldsNormalized(v: Address) {
    AllDigits(v.phone) && DigitsOnly(v.zipCode) && DigitsOnly(v.marsLot)
  }

  predicate WellFormed(v: Address) {
    InactiveGroupCleared(v) && DigitFieldsNormalized(v)
  }

  /** A record as the form commits it: valid for its schema and well formed. */
  predicate Committed(a: Address) {
    ValidationErrors(a) == [] && WellFormed(a)
  }

  ghost predicate AllCommitted(s: seq<Address>) {
    forall i :: 0 <= i < |s| ==> Committed(s[i])
  }

  /** Exactly one group is populated and the other is empty: the Earth group
      complete and the lot empty, or a four-digit lot and the Earth group
      empty. */
  predicate Exclusive(a: Address) {
    match a.planetType
    case Earth =>
      Bounded(a.addressLine, 5, 200) && a.country.Some? && a.country.value != ""
      && Bounded(a.state, 2, 100) && Bounded(a.city, 2, 100) && Bounded(a.zipCode, 5, 10)
      && AllDigits(a.zipCode.value) && Cleared(a.marsLot)
    case Mars =>
      a.marsLot.Some? && |a.marsLot.value| == 4 && AllDigits(a.marsLot.value)
      && Cleared(a.addressLine) && Cleared(a.country) && Cleared(a.state) && Cleared(a.city) && Cleared(a.zipCode)
  }

  lemma CommittedIsExclusive(a: Address)
    ensures Committed(a) ==> Exclusive(a)
  {
    if Committed(a) {
      ValidIffSatisfiesSchema(a);
      assert FieldOk(a, AddressLine) && FieldOk(a, Country) && FieldOk(a, State);
      assert FieldOk(a, City) && FieldOk(a, ZipCode) && FieldOk(a, MarsLot);
    }
  }

  /** A committed record's zip is all digits although the zip rule checks
      length only: the digits come from the zip input. */
  lemma CommittedZipIsDigits(a: Address)
    requires Committed(a) && a.planetType == Earth
    ensures a.zipCode.Some? && AllDigits(a.zipCode.value) && 5 <= |a.zipCode.value| <= 10
  {
    CommittedIsExclusive(a);
  }

  /** Validation and well-formedness do not look at `id`, so giving the
      record its id at submit time keeps it committed. */
  lemma CommittedIgnoresId(a: Address, id: string)
    requires Committed(a)
    ensures Committed(a.(id := id))
  {
    OnlyActiveFieldsMatter(a, a.(id := id));
  }

  lemma AppendKeepsCommitted(s: seq<Address>, a: Address)
    requires AllCommitted(s) && Committed(a)
    ensures AllCommitted(s + [a])
  {
    assert forall i :: 0 <= i < |s| ==> (s + [a])[i] == s[i];
  }

  lemma ReplacedKeepsCommitted(s: seq<Address>, u: Address)
    requires AllCommitted(s) && Committed(u)
    ensures AllCommitted(Replaced(s, u))
  {
  }

  /** A new form is an Earth shipping draft with an empty id in which every
      field holds a string, and only the label and the country hold text. */
  lemma DefaultValuesShape()
    ensures DefaultValues.planetType == Earth && DefaultValues.addressType == Shipping && DefaultValues.id == ""
    ensures forall f :: FieldValue(DefaultValues, f).Some?
    ensures forall f :: FieldValue(DefaultValues, f) != Some("") <==> f == Label || f == Country
  {
  }

  /** Removing never stores anything new, so a committed list stays committed. */
  lemma RemovedKeepsCommitted(s: seq<Address>, id: string)
    requires AllCommitted(s)
    ensures AllCommitted(Removed(s, id))
  {
    var r := Removed(s, id);
    SubsequenceIn(r, s);
    forall i | 0 <= i < |r|
      ensures Committed(r[i])
    {
      var k :| 0 <= k < |s| && s[k] == r[i];
    }
  }

  /** The defaults already hold what the handlers keep: an empty lot, and
      digit fields that are empty. */
  lemma DefaultValuesWellFormed()
    ensures WellFormed(DefaultValues)
  {
    assert AllDigits("");
  }

  /** Submitting the untouched new form reports exactly the name, the phone
      and the four empty Earth fields; it is well formed. */
  lemma DefaultValuesReport(f: Field)
    ensures WellFormed(DefaultValues)
    ensures Reports(ValidationErrors(DefaultValues), f)
            <==> f in {Name, Phone, AddressLine, State, City, ZipCode}
  {
    ReportedIffFieldFails(DefaultValues, f);
    DefaultFieldOk(f);
  }

  /** Of the rules the Earth schema applies, the defaults meet only those of
      the label and the country. */
  lemma DefaultFieldOk(f: Field)
    ensures FieldOk(DefaultValues, f) <==> f in {Label, Country, MarsLot}
  {
    assert |"Casa"| == 4 && |"Brazil"| == 6;
  }

  /* ---------------------------------------------------------------------- */
  /* The form                                                                */
  /* ---------------------------------------------------------------------- */

  class Form {
    /** The record being edited, if any (the `initialData` prop). */
    const initialData: Option<Address>
    /** `selectedPlanet`, the state that decides which inputs are rendered. */
    var selectedPlanet: PlanetType
    /** The form's values. */
    var values: Address

    /** The handlers' invariant: the state and the tag agree, the inactive
        group is empty and the digit fields hold digits. A valid form that
        passes the schema holds a committed record with exactly one group. */
    ghost predicate Valid()
      reads this
      ensures Valid() && ValidationErrors(values) == [] ==> Committed(values) && Exclusive(values)
    {
      CommittedIsExclusive(values);
      selectedPlanet == values.planetType && WellFormed(values)
    }

    /** `initialData?.id` is truthy: the form edits a stored record. */
    predicate IsEditing()
    {
      initialData.Some? && initialData.value.id != ""
    }

    /** The values start as `initialData` when given and as the defaults
        otherwise; `selectedPlanet` starts at their tag. */
    constructor (initialData: Option<Address>)
      ensures this.initialData == initialData
      ensures values == (if initialData.Some? then initialData.value else DefaultValues)
      ensures selectedPlanet == values.planetType
      ensures (initialData.None? || WellFormed(initialData.value)) ==> Valid()
    {
      this.initialData := initialData;
      var v := if initialData.Some? then initialData.value else DefaultValues;
      values := v;
      selectedPlanet := v.planetType;
      DefaultValuesWellFormed();
    }

    /** `handlePlanetChange`: switching to Mars empties the five Earth fields
        and leaves the lot; switching to Earth empties only the lot. */
    method HandlePlanetChange(value: PlanetType)
      modifies this
      ensures selectedPlanet == value
      ensures value == Mars ==>
        values == old(values).(planetType := Mars, addressLine := Some(""), country := Some(""),
                               state := Some(""), city := Some(""), zipCode := Some(""))
      ensures value == Earth ==> values == old(values).(planetType := Earth, marsLot := Some(""))
      ensures old(Valid()) ==> Valid()
    {
      selectedPlanet := value;
      values := values.(planetType := value);
      if value == Mars {
        values := values.(addressLine := Some(""));
        values := values.(country := Some(""));
        values := values.(state := Some(""));
        values := values.(city := Some(""));
        values := values.(zipCode := Some(""));
      } else {
        values := values.(marsLot := Some(""));
      }
      assert AllDigits("");
    }

    /** An input's `onChange`: the phone, zip and lot inputs store the typed
        text without its non-digits, the others store it as typed. Only an
        input on screen can fire. */
    method Input(f: Field, raw: string)
      requires Rendered(f, selectedPlanet)
      modifies this
      ensures values == WithField(old(values), f, Normalize(f, raw))
      ensures selectedPlanet == old(selectedPlanet)
      ensures old(Valid()) ==> Valid()
    {
      values := WithField(values, f, Normalize(f, raw));
    }

    /** The address type select's `onChange`. */
    method SetAddressType(t: AddressType)
      modifies this
      ensures values == old(values).(addressType := t)
      ensures selectedPlanet == old(selectedPlanet)
      ensures old(Valid()) ==> Valid()
    {
      values := values.(addressType := t);
    }

    /** `form.handleSubmit(onSubmit)`: nothing reaches the store unless the
        schema passes; then an edit updates under the original id and a new
        form adds under `freshId` (the caller's stand-in for
        `Date.now().toString()`). A well-formed form only ever commits
        committed records. */
    method Submit(store: AddressStore, freshId: string) returns (errs: seq<FieldError>)
      modifies store
      ensures errs == ValidationErrors(values)
      ensures errs != [] ==> store.addresses == old(store.addresses)
      ensures errs == [] && IsEditing() ==>
        store.addresses == Replaced(old(store.addresses), values.(id := initialData.value.id))
      ensures errs == [] && !IsEditing() ==>
        store.addresses == old(store.addresses) + [values.(id := freshId)]
      ensures Valid() && AllCommitted(old(store.addresses)) ==> AllCommitted(store.addresses)
      ensures UniqueIds(old(store.addresses)) && (IsEditing() || !HasId(old(store.addresses), freshId))
              ==> UniqueIds(store.addresses)
    {
      errs := ValidationErrors(values);
      if errs == [] {
        if IsEditing() {
          var u := values.(id := initialData.value.id);
          if Valid() && AllCommitted(store.addresses) {
            CommittedIgnoresId(values, u.id);
            ReplacedKeepsCommitted(store.addresses, u);
          }
          if UniqueIds(store.addresses) {
            ReplacedKeepsUnique(store.addresses, u);
          }
          store.UpdateAddress(u);
        } else {
          var a := values.(id := freshId);
          if Valid() && AllCommitted(store.addresses) {
            CommittedIgnoresId(values, freshId);
            AppendKeepsCommitted(store.addresses, a);
          }
          if UniqueIds(store.addresses) && !HasId(store.addresses, freshId) {
            AppendFreshKeepsUnique(store.addresses, a);
          }
          store.AddAddress(a);
        }
      }
    }
  }
}
