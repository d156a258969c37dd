/** The field rules of the address form (src/components/address/address-form.tsx):
    `earthSchema`, `marsSchema`, their union keyed by `planetType`, and the
    digit-stripping normaliser that the phone, zip and lot inputs apply.

    A schema is modelled as the list of per-field errors it reports, in the
    order the schema lists its fields and, within a field, the order of its
    checks; every failing check is reported, none short-circuits. The
    reference predicate `SatisfiesSchema` states the same rules
    declaratively, field by field. */
module AddressSchema {
  import opened Seqs
  import opened Types

  /** The fields that carry rules. */
  datatype Field = Label | Name | Phone | AddressLine | Country | State | City | ZipCode | MarsLot

  /** Which check failed: a minimum or maximum length, a digit pattern, or a
      required value that is `undefined`. */
  datatype Rule = TooShort(min: nat) | TooLong(max: nat) | BadPattern | Required

  datatype FieldError = FieldError(field: Field, rule: Rule)

  /** `\d` in a JavaScript regular expression without the `u` flag. */
  predicate IsDigit(c: char) {
    '0' <= c <= '9'
  }

  predicate AllDigits(s: string) {
    forall i :: 0 <= i < |s| ==> IsDigit(s[i])
  }

  /* ---------------------------------------------------------------------- */
  /* Normaliser: value.replace(/\D/g, "")                                    */
  /* ---------------------------------------------------------------------- */

  /** Deletes every character that is not an ASCII digit. */
  function StripNonDigits(s: string): (r: string)
    ensures AllDigits(r)
    ensures |r| <= |s|
    ensures IsSubsequence(r, s)
  {
    Filter(s, IsDigit)
  }

  /** Each digit is kept as often as it occurs; every other character is gone. */
  lemma StripCounts(s: string)
    ensures forall c :: multiset(StripNonDigits(s))[c] == if IsDigit(c) then multiset(s)[c] else 0
  {
    FilterCounts(s, IsDigit);
  }

  /** A string is left as it is exactly when it is already all digits. */
  lemma StripFixesExactlyDigitStrings(s: string)
    ensures StripNonDigits(s) == s <==> AllDigits(s)
  {
    FilterKeepsAll(s, IsDigit);
  }

  lemma StripIdempotent(s: string)
    ensures StripNonDigits(StripNonDigits(s)) == StripNonDigits(s)
  {
    FilterIdempotent(s, IsDigit);
  }

  /** Stripping distributes over concatenation: each character is judged on its own. */
  lemma StripConcat(a: string, b: string)
    ensures StripNonDigits(a + b) == StripNonDigits(a) + StripNonDigits(b)
  {
    FilterConcat(a, b, IsDigit);
  }

  /* ---------------------------------------------------------------------- */
  /* Individual checks                                                       */
  /* ---------------------------------------------------------------------- */

  /** `.min(lo)`: fails when the string is shorter than `lo`. */
  function MinCheck(f: Field, s: string, lo: nat): (errs: seq<FieldError>)
  {
    if |s| < lo then [FieldError(f, TooShort(lo))] else []
  }

  /** `.max(hi)`: fails when the string is longer than `hi`. */
  function MaxCheck(f: Field, s: string, hi: nat): (errs: seq<FieldError>)
  {
    if |s| > hi then [FieldError(f, TooLong(hi))] else []
  }

  /** `.length(n)`: too short or too long, never both. */
  function LengthCheck(f: Field, s: string, n: nat): (errs: seq<FieldError>)
    ensures errs == [] <==> |s| == n
    ensures |errs| <= 1
  {
    if |s| < n then [FieldError(f, TooShort(n))]
    else if |s| > n then [FieldError(f, TooLong(n))]
    else []
  }

  /** `.min(lo).max(hi)` runs both checks, yet with `lo <= hi` a text fails
      at most one of them, and passes both exactly when its length lies in
      the range. */
  lemma BoundChecksAtMostOne(f: Field, s: string, lo: nat, hi: nat)
    requires lo <= hi
    ensures |MinCheck(f, s, lo) + MaxCheck(f, s, hi)| <= 1
    ensures MinCheck(f, s, lo) + MaxCheck(f, s, hi) == [] <==> lo <= |s| <= hi
  {
  }

  /** `.regex(...)`: one error when the pattern does not match. */
  function PatternCheck(f: Field, matches: bool): (errs: seq<FieldError>)
    ensures errs == [] <==> matches
  {
    if matches then [] else [FieldError(f, BadPattern)]
  }

  /** `/^\d+$/`: one or more characters, each of them `\d`; so exactly the
      non-empty texts the digit stripper leaves unchanged. */
  predicate MatchesDigits(s: string)
    ensures MatchesDigits(s) <==> s != [] && StripNonDigits(s) == s
  {
    StripFixesExactlyDigitStrings(s);
    |s| > 0 && AllDigits(s)
  }

  /** `/^\d{4}$/`: exactly four digits, so a match of `/^\d+$/` as well. */
  predicate MatchesFourDigits(s: string)
    ensures MatchesFourDigits(s) <==> |s| == 4 && MatchesDigits(s)
  {
    |s| == 4 && AllDigits(s)
  }

  /** A `z.string()` member that must be present: `undefined` is reported as
      required and no further check runs on it. */
  function RequiredString(f: Field, o: Option<string>, lo: nat, hi: nat): (errs: seq<FieldError>)
    ensures errs == [] <==> o.Some? && lo <= |o.value| <= hi
    ensures forall e :: e in errs ==> e.field == f
  {
    match o
    case None => [FieldError(f, Required)]
    case Some(s) => MinCheck(f, s, lo) + MaxCheck(f, s, hi)
  }

  /** A required `z.string()` member with a minimum length only. */
  function RequiredMin(f: Field, o: Option<string>, lo: nat): (errs: seq<FieldError>)
    ensures errs == [] <==> o.Some? && lo <= |o.value|
    ensures forall e :: e in errs ==> e.field == f
  {
    match o
    case None => [FieldError(f, Required)]
    case Some(s) => MinCheck(f, s, lo)
  }

  /* ---------------------------------------------------------------------- */
  /* The rule of each field                                                  */
  /* ---------------------------------------------------------------------- */

  /** The checks the schemas attach to one field, in their written order:
      `label` 1..50, `name` 3..100, `phone` 8..15 and `/^\d+$/`, `addressLine`
      5..200, `country` at least 1, `state` and `city` 2..100, `zipCode` 5..10
      (length only), `marsLot` of length exactly 4 and `/^\d{4}$/`. */
  function Check(v: Address, f: Field): (errs: seq<FieldError>)
    ensures forall e :: e in errs ==> e.field == f
  {
    match f
    case Label => MinCheck(Label, v.labelText, 1) + MaxCheck(Label, v.labelText, 50)
    case Name => MinCheck(Name, v.name, 3) + MaxCheck(Name, v.name, 100)
    case Phone =>
      MinCheck(Phone, v.phone, 8) + MaxCheck(Phone, v.phone, 15) + PatternCheck(Phone, MatchesDigits(v.phone))
    case AddressLine => RequiredString(AddressLine, v.addressLine, 5, 200)
    case Country => RequiredMin(Country, v.country, 1)
    case State => RequiredString(State, v.state, 2, 100)
    case City => RequiredString(City, v.city, 2, 100)
    case ZipCode => RequiredString(ZipCode, v.zipCode, 5, 10)
    case MarsLot =>
      match v.marsLot
      case None => [FieldError(MarsLot, Required)]
      case Some(s) => LengthCheck(MarsLot, s, 4) + PatternCheck(MarsLot, MatchesFourDigits(s))
  }

  /** Runs the checks of the listed fields one after the other and collects
      every error; a failing field does not stop the others. */
  function ErrorsFor(v: Address, fs: seq<Field>): (errs: seq<FieldError>)
    ensures forall e :: e in errs ==> e.field in fs
  {
    if fs == [] then [] else Check(v, fs[0]) + ErrorsFor(v, fs[1..])
  }

  /* ---------------------------------------------------------------------- */
  /* earthSchema, marsSchema, formSchema                                     */
  /* ---------------------------------------------------------------------- */

  /** The keys of `earthSchema` that carry checks, in declaration order;
      `marsLot` is optional and unchecked there. */
  const EarthFields: seq<Field> := [Label, Name, Phone, AddressLine, Country, State, City, ZipCode]

  /** The keys of `marsSchema` that carry checks; the Earth group is optional
      and unchecked there. */
  const MarsFields: seq<Field> := [Label, Name, Phone, MarsLot]

  /** `earthSchema` checks every key but `marsLot`, each once; `marsSchema`
      checks the three common keys and `marsLot`, each once. */
  lemma SchemaKeys()
    ensures forall f :: f in EarthFields <==> f != MarsLot
    ensures forall f :: f in MarsFields <==> f == Label || f == Name || f == Phone || f == MarsLot
    ensures |EarthFields| == 8 && |MarsFields| == 4
  {
  }

  /** The fields the schema chosen by a tag checks. */
  function SchemaFields(p: PlanetType): (fs: seq<Field>)
    ensures Label in fs && Name in fs && Phone in fs
    ensures MarsLot in fs <==> p == Mars
    ensures AddressLine in fs <==> p == Earth
  {
    match p
    case Earth => EarthFields
    case Mars => MarsFields
  }

  function EarthErrors(v: Address): (errs: seq<FieldError>)
    ensures forall e :: e in errs ==> e.field != MarsLot
  {
    ErrorsFor(v, EarthFields)
  }

  function MarsErrors(v: Address): (errs: seq<FieldError>)
    ensures forall e :: e in errs ==> e.field in {Label, Name, Phone, MarsLot}
  {
    ErrorsFor(v, MarsFields)
  }

  /** `formSchema`: the ruleset is chosen by the `planetType` tag alone, and
      the errors come in the schema's field order. */
  function ValidationErrors(v: Address): (errs: seq<FieldError>)
    ensures forall e :: e in errs ==> e.field in SchemaFields(v.planetType)
    ensures InFieldOrder(errs)
  {
    SchemaFieldsIncreasing(v.planetType);
    ErrorsInOrder(v, SchemaFields(v.planetType));
    match v.planetType
    case Earth => EarthErrors(v)
    case Mars => MarsErrors(v)
  }

  /* ---------------------------------------------------------------------- */
  /* Declarative reference                                                   */
  /* ---------------------------------------------------------------------- */

  predicate Bounded(o: Option<string>, lo: nat, hi: nat) {
    o.Some? && lo <= |o.value| <= hi
  }

  /** The rule for one field, for the schema the record's tag selects. */
  predicate FieldOk(v: Address, f: Field) {
    match f
    case Label => 1 <= |v.labelText| <= 50
    case Name => 3 <= |v.name| <= 100
    case Phone => 8 <= |v.phone| <= 15 && AllDigits(v.phone)
    case AddressLine => v.planetType == Mars || Bounded(v.addressLine, 5, 200)
    case Country => v.planetType == Mars || (v.country.Some? && |v.country.value| >= 1)
    case State => v.planetType == Mars || Bounded(v.state, 2, 100)
    case City => v.planetType == Mars || Bounded(v.city, 2, 100)
    case ZipCode => v.planetType == Mars || Bounded(v.zipCode, 5, 10)
    case MarsLot =>
      v.planetType == Earth || (v.marsLot.Some? && |v.marsLot.value| == 4 && AllDigits(v.marsLot.value))
  }

  predicate SatisfiesSchema(v: Address) {
    forall f :: FieldOk(v, f)
  }

  predicate Reports(errs: seq<FieldError>, f: Field) {
    exists e :: e in errs && e.field == f
  }

  /** For a field the selected schema lists, its checks pass exactly when its rule holds. */
  lemma CheckPassesIffFieldOk(v: Address, f: Field)
    requires f in SchemaFields(v.planetType)
    ensures Check(v, f) == [] <==> FieldOk(v, f)
  {
  }

  /** A field is reported by a run over `fs` exactly when it is listed and its checks fail. */
  lemma {:induction false} ReportsErrorsFor(v: Address, fs: seq<Field>, f: Field)
    ensures Reports(ErrorsFor(v, fs), f) <==> f in fs && Check(v, f) != []
  {
    if fs != [] {
      ReportsErrorsFor(v, fs[1..], f);
      assert fs == [fs[0]] + fs[1..];
      var errs := ErrorsFor(v, fs);
      if f == fs[0] && Check(v, f) != [] {
        assert Check(v, f)[0] in errs;
      }
      if f in fs[1..] && Check(v, f) != [] {
        var e :| e in ErrorsFor(v, fs[1..]) && e.field == f;
        assert e in errs;
      }
    }
  }

  /** A field is reported exactly when its rule fails. */
  lemma ReportedIffFieldFails(v: Address, f: Field)
    ensures Reports(ValidationErrors(v), f) <==> !FieldOk(v, f)
  {
    ReportsErrorsFor(v, SchemaFields(v.planetType), f);
    if f in SchemaFields(v.planetType) {
      CheckPassesIffFieldOk(v, f);
    }
  }

  /** The error list is empty exactly when every rule of the selected schema holds. */
  lemma ValidIffSatisfiesSchema(v: Address)
    ensures ValidationErrors(v) == [] <==> SatisfiesSchema(v)
  {
    var errs := ValidationErrors(v);
    forall f
      ensures Reports(errs, f) <==> !FieldOk(v, f)
    {
      ReportedIffFieldFails(v, f);
    }
    if errs != [] {
      assert Reports(errs, errs[0].field);
    }
  }

  /* ---------------------------------------------------------------------- */
  /* Order of the reported errors                                            */
  /* ---------------------------------------------------------------------- */

  /** The position of a field in the schemas' key order. */
  function Rank(f: Field): nat {
    match f
    case Label => 0
    case Name => 1
    case Phone => 2
    case AddressLine => 3
    case Country => 4
    case State => 5
    case City => 6
    case ZipCode => 7
    case MarsLot => 8
  }

  ghost predicate InFieldOrder(errs: seq<FieldError>) {
    forall i, j :: 0 <= i < j < |errs| ==> Rank(errs[i].field) <= Rank(errs[j].field)
  }

  ghost predicate Increasing(fs: seq<Field>) {
    forall i, j :: 0 <= i < j < |fs| ==> Rank(fs[i]) < Rank(fs[j])
  }

  lemma SchemaFieldsIncreasing(p: PlanetType)
    ensures Increasing(SchemaFields(p))
  {
    var fs := SchemaFields(p);
    forall i, j | 0 <= i < j < |fs|
      ensures Rank(fs[i]) < Rank(fs[j])
    {
      assert p == Earth ==> Rank(fs[i]) == i && Rank(fs[j]) == j;
      assert p == Mars ==> Rank(fs[i]) == if i < 3 then i else 8;
      assert p == Mars ==> Rank(fs[j]) == if j < 3 then j else 8;
    }
  }

  /** The fields after the first of an increasing list all rank above it. */
  lemma TailAfterHead(v: Address, fs: seq<Field>)
    requires Increasing(fs) && fs != []
    ensures forall e :: e in ErrorsFor(v, fs[1..]) ==> Rank(fs[0]) < Rank(e.field)
  {
    forall e | e in ErrorsFor(v, fs[1..])
      ensures Rank(fs[0]) < Rank(e.field)
    {
      var k :| 0 <= k < |fs[1..]| && fs[1..][k] == e.field;
      assert fs[1..][k] == fs[k + 1];
    }
  }

  lemma {:induction false} ErrorsInOrder(v: Address, fs: seq<Field>)
    requires Increasing(fs)
    ensures InFieldOrder(ErrorsFor(v, fs))
  {
    if fs != [] {
      assert Increasing(fs[1..]) by {
        assert forall i :: 0 <= i < |fs| - 1 ==> fs[1..][i] == fs[i + 1];
      }
      ErrorsInOrder(v, fs[1..]);
      TailAfterHead(v, fs);
      OrderedConcat(Check(v, fs[0]), ErrorsFor(v, fs[1..]), fs[0]);
    }
  }

  /** Errors of one field followed by ordered errors of later fields are ordered. */
  lemma OrderedConcat(head: seq<FieldError>, tail: seq<FieldError>, f: Field)
    requires forall e :: e in head ==> e.field == f
    requires forall e :: e in tail ==> Rank(f) < Rank(e.field)
    requires InFieldOrder(tail)
    ensures InFieldOrder(head + tail)
  {
    var errs := head + tail;
    forall i, j | 0 <= i < j < |errs|
      ensures Rank(errs[i].field) <= Rank(errs[j].field)
    {
      if j < |head| {
        assert errs[i] in head && errs[j] in head;
      } else if i < |head| {
        assert errs[i] in head;
        assert errs[j] == tail[j - |head|] && tail[j - |head|] in tail;
      } else {
        assert errs[i] == tail[i - |head|] && errs[j] == tail[j - |head|];
      }
    }
  }

  /* ---------------------------------------------------------------------- */
  /* Properties of the union                                                 */
  /* ---------------------------------------------------------------------- */

  /** Two records with the same tag and the same values in the fields that tag
      checks get the same errors: `id`, `addressType` and the inactive group
      play no part. */
  lemma OnlyActiveFieldsMatter(v: Address, w: Address)
    requires v.planetType == w.planetType
    requires v.labelText == w.labelText && v.name == w.name && v.phone == w.phone
    requires v.planetType == Earth ==>
      v.addressLine == w.addressLine && v.country == w.country && v.state == w.state
      && v.city == w.city && v.zipCode == w.zipCode
    requires v.planetType == Mars ==> v.marsLot == w.marsLot
    ensures ValidationErrors(v) == ValidationErrors(w)
  {
    var fs := SchemaFields(v.planetType);
    forall f | f in fs
      ensures Check(v, f) == Check(w, f)
    {
    }
    SameChecksSameErrors(v, w, fs);
  }

  lemma {:induction false} SameChecksSameErrors(v: Address, w: Address, fs: seq<Field>)
    requires forall f :: f in fs ==> Check(v, f) == Check(w, f)
    ensures ErrorsFor(v, fs) == ErrorsFor(w, fs)
  {
    if fs != [] {
      assert fs[0] in fs;
      assert forall f :: f in fs[1..] ==> f in fs;
      SameChecksSameErrors(v, w, fs[1..]);
    }
  }

  /** The zip rule is a length rule only: a five-letter zip passes it. */
  lemma ZipRuleHasNoDigitPattern(v: Address)
    requires v.planetType == Earth && v.zipCode == Some("abcde")
    ensures !Reports(ValidationErrors(v), ZipCode)
  {
    ReportedIffFieldFails(v, ZipCode);
  }

  /** The Mars schema accepts whatever Earth group sits beside a valid lot,
      so the rules alone do not keep the two groups exclusive. */
  lemma MarsSchemaIgnoresEarthGroup(v: Address, line: string, country: string, state: string, city: string, zip: string)
    requires v.planetType == Mars && ValidationErrors(v) == []
    ensures ValidationErrors(v.(addressLine := Some(line), country := Some(country), state := Some(state),
                                city := Some(city), zipCode := Some(zip))) == []
  {
    OnlyActiveFieldsMatter(v, v.(addressLine := Some(line), country := Some(country), state := Some(state),
                                 city := Some(city), zipCode := Some(zip)));
  }

  /** Likewise the Earth schema accepts any lot beside a valid Earth group. */
  lemma EarthSchemaIgnoresMarsLot(v: Address, lot: string)
    requires v.planetType == Earth && ValidationErrors(v) == []
    ensures ValidationErrors(v.(marsLot := Some(lot))) == []
  {
    OnlyActiveFieldsMatter(v, v.(marsLot := Some(lot)));
  }

  /** A typed zip "12a45" strips to "1245". */
  lemma StripExample()
    ensures StripNonDigits("12a45") == "1245"
  {
    assert StripNonDigits("45") == "45" by {
      assert AllDigits("45");
      StripFixesExactlyDigitStrings("45");
    }
    assert StripNonDigits("a45") == "45" by {
      assert "a45"[1..] == "45";
    }
    assert StripNonDigits("2a45") == "245" by {
      assert "2a45"[1..] == "a45";
    }
    assert "12a45"[1..] == "2a45";
  }

  /** ... and "1245" fails the zip minimum of 5. */
  lemma StrippedZipTooShort(v: Address)
    requires v.planetType == Earth && v.zipCode == Some(StripNonDigits("12a45"))
    ensures FieldError(ZipCode, TooShort(5)) in ValidationErrors(v)
  {
    StripExample();
    assert Check(v, ZipCode) == [FieldError(ZipCode, TooShort(5))];
    InErrorsFor(v, EarthFields, ZipCode);
  }

  lemma {:induction false} InErrorsFor(v: Address, fs: seq<Field>, f: Field)
    requires f in fs
    ensures forall e :: e in Check(v, f) ==> e in ErrorsFor(v, fs)
  {
    if fs[0] != f {
      InErrorsFor(v, fs[1..], f);
    }
  }

  /** A well-formed Mars record passes. */
  lemma MarsRecordValidates()
    ensures ValidationErrors(Address("", Mars, Shipping, "Casa", "Ana Silva", "11987654321",
                                     None, None, None, None, None, Some("1234"))) == []
  {
    var v := Address("", Mars, Shipping, "Casa", "Ana Silva", "11987654321",
                     None, None, None, None, None, Some("1234"));
    assert SatisfiesSchema(v) by {
      assert forall f :: FieldOk(v, f) by { assert AllDigits(v.phone) && AllDigits("1234"); }
    }
    ValidIffSatisfiesSchema(v);
  }
}
