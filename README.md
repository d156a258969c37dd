# Address catalog — a verified model

This project models the core of a small client-side catalog of delivery and
billing addresses. Each address is either an Earth postal address (street,
country, state, city, zip) or a Mars colony address (a four-digit lot). The
model covers five parts of the program:

- the `Address` record and its two tags (`Types`, from `src/lib/types.ts`);
- the form's validation schemas and its digit-stripping input normaliser
  (`AddressSchema`, from `src/components/address/address-form.tsx`);
- the form's state and handlers (`AddressForm.Form`, from the same file): the
  default values, the `onChange` handlers, `handlePlanetChange`, and
  `onSubmit`, which picks between adding and updating;
- the store with its three updaters (`Store.AddressStore`, from
  `src/lib/store.ts`);
- the list view's search filter (`AddressList`, from
  `src/components/address/address-list.tsx`).

`Seqs` holds the order-preserving `Filter` that the store's `removeAddress`,
the list filter and the digit stripper all use, with its lemmas.

A schema is modelled as the list of field errors it reports. The errors come
in the schema's key order and, within a field, in the order of its checks.
Every failing check is reported. `SatisfiesSchema` restates the same rules
field by field, as an independent reference. Both schemas share `label`
1..50, `name` 3..100, and `phone` of 8..15 digits. Earth also requires
`addressLine` 5..200, a non-empty `country`, `state` and `city` 2..100, and
`zipCode` 5..10. The zip rule checks length only. Mars requires a `marsLot` of
exactly four digits. Each schema leaves the other group optional and
unchecked.

In four places the code guarantees less than a stricter reading would, and the model follows the code:

- `addAddress` does not reject an id already in the list (`AppendTakenIdDuplicates`).
  Ids stay unique only when the new id is fresh (`AppendFreshKeepsUnique`).
- `updateAddress` with an unknown id reports no "not found" error. The list
  is left identical (`ReplacedAbsentIsNoOp`).
- The schemas do not keep the Earth group and the Mars lot exclusive: the Mars
  schema accepts any Earth strings (`MarsSchemaIgnoresEarthGroup`). Exclusivity
  holds only for records committed through the form. This is because
  `handlePlanetChange` clears the inactive group and because only the active
  group's inputs are on screen (`Form.Valid`, `CommittedIsExclusive`,
  `Form.Submit`).
- The zip check is a length check. A committed zip is all digits only because
  its input strips non-digits (`ZipRuleHasNoDigitPattern`, `CommittedZipIsDigits`).

The field `label` is called `labelText` in the model, because `label` is a
Dafny keyword.

## Model

| member | source | states |
|---|---|---|
| Seqs.Filter | src/lib/store.ts:33 | `Array.filter` keeps only elements satisfying the test, never lengthens the list and keeps the kept elements in their order |
| Types.PlanetTag | src/lib/types.ts:1-4 | a planet's wire value is "earth" or "mars" |
| Types.ParsePlanet | src/lib/types.ts:1-4 | a tag is accepted exactly when it is "earth" or "mars", and it then reads back to the same string |
| Types.PlanetTagRoundTrip | src/lib/types.ts:1-4 | parsing a planet's tag returns that planet |
| Types.PlanetTagInjective | src/lib/types.ts:1-4 | two planets have the same tag exactly when they are the same planet |
| Types.AddressTypeTag | src/lib/types.ts:9 | an address type's value is "shipping" or "billing" |
| Types.ParseAddressType | src/lib/types.ts:9 | an address type is accepted exactly when it is "shipping" or "billing", and it reads back to the same string |
| Types.AddressTypeTagRoundTrip | src/lib/types.ts:9 | parsing an address type's tag returns that type |
| Types.TypeAllowsBothGroups | src/lib/types.ts:6-21 | the `Address` record always carries id, tag, type, label, name and phone, while the Earth group and the lot are each optional; so the record type admits a value with both an Earth group and a Mars lot, so the type alone does not enforce exclusivity |
| AddressSchema.StripNonDigits | src/components/address/address-form.tsx:293 | `replace(/\D/g, "")` returns only digits, never lengthens its input, and is a subsequence of it |
| AddressSchema.StripCounts | src/components/address/address-form.tsx:392 | each digit is kept as often as it occurs, and every other character is removed |
| AddressSchema.StripFixesExactlyDigitStrings | src/components/address/address-form.tsx:416 | stripping leaves a string unchanged exactly when it is all digits |
| AddressSchema.StripIdempotent | src/components/address/address-form.tsx:293 | stripping twice gives the same result as stripping once |
| AddressSchema.StripConcat | src/components/address/address-form.tsx:293 | stripping distributes over concatenation |
| AddressSchema.StripExample | src/components/address/address-form.tsx:391-394 | "12a45" strips to "1245" |
| AddressSchema.BoundChecksAtMostOne | src/components/address/address-form.tsx:33-40 | `.min(lo).max(hi)` runs both checks, yet with `lo <= hi` a text fails at most one of them, and passes both exactly when `lo <= |s| <= hi` |
| AddressSchema.LengthCheck | src/components/address/address-form.tsx:90 | `.length(n)` reports at most one error, and reports nothing exactly when the length is `n` |
| AddressSchema.MatchesFourDigits | src/components/address/address-form.tsx:91 | `/^\d{4}$/` matches exactly a four-character text matching `/^\d+$/` |
| AddressSchema.MatchesDigits | src/components/address/address-form.tsx:45 | a text matches `/^\d+$/` exactly when it is non-empty and the digit stripper leaves it unchanged |
| AddressSchema.PatternCheck | src/components/address/address-form.tsx:45 | a regex check reports nothing exactly when the pattern matches |
| AddressSchema.RequiredString | src/components/address/address-form.tsx:46-49 | a required bounded string passes exactly when it is present and within its bounds; its errors name only that field |
| AddressSchema.RequiredMin | src/components/address/address-form.tsx:50 | a required string with only a minimum passes exactly when it is present and long enough |
| AddressSchema.Check | src/components/address/address-form.tsx:33-91 | the checks attached to one field report errors that name only that field |
| AddressSchema.ErrorsFor | src/components/address/address-form.tsx:29-92 | running the field checks collects only errors of the listed fields |
| AddressSchema.SchemaKeys | src/components/address/address-form.tsx:29-92 | of the nine fields that carry length or digit rules, the Earth shape checks every one but `marsLot` (eight), and the Mars shape checks `label`, `name`, `phone` and `marsLot` (four); `id`, `planetType` and `addressType` carry no such rule in either |
| AddressSchema.SchemaFields | src/components/address/address-form.tsx:94-97 | the fields each tag checks: the common three always, `addressLine` exactly for Earth, `marsLot` exactly for Mars |
| AddressSchema.EarthErrors | src/components/address/address-form.tsx:29-64 | the Earth schema never reports `marsLot` |
| AddressSchema.MarsErrors | src/components/address/address-form.tsx:66-92 | the Mars schema reports only the common fields and `marsLot` |
| AddressSchema.ValidationErrors | src/components/address/address-form.tsx:94-97 | the union reports only fields of the schema the tag selects, in the schemas' field order |
| AddressSchema.CheckPassesIffFieldOk | src/components/address/address-form.tsx:33-91 | for a field the selected schema lists, its checks pass exactly when the declarative rule holds |
| AddressSchema.ReportsErrorsFor | src/components/address/address-form.tsx:29-92 | a field is reported by a run over a field list exactly when it is listed and its checks fail |
| AddressSchema.ReportedIffFieldFails | src/components/address/address-form.tsx:94-97 | a field is reported exactly when its rule, for the record's tag, fails |
| AddressSchema.ValidIffSatisfiesSchema | src/components/address/address-form.tsx:94-97 | validation reports nothing exactly when every rule of the selected schema holds |
| AddressSchema.SchemaFieldsIncreasing | src/components/address/address-form.tsx:29-92 | each schema lists its checked fields in strictly increasing key order |
| AddressSchema.ErrorsInOrder | src/components/address/address-form.tsx:29-92 | running checks over fields in key order yields errors in key order |
| AddressSchema.TailAfterHead | src/components/address/address-form.tsx:29-92 | in an increasing field list, every error of the later fields ranks above the first field |
| AddressSchema.OrderedConcat | src/components/address/address-form.tsx:29-92 | one field's errors followed by ordered errors of later fields stay in key order |
| AddressSchema.OnlyActiveFieldsMatter | src/components/address/address-form.tsx:94-97 | records with the same tag and the same active fields get the same errors; `id`, `addressType` and the inactive group play no part |
| AddressSchema.SameChecksSameErrors | src/components/address/address-form.tsx:29-92 | fields whose checks agree give the same collected errors |
| AddressSchema.ZipRuleHasNoDigitPattern | src/components/address/address-form.tsx:59-62 | an Earth zip "abcde" is not reported, because the zip rule has no digit pattern |
| AddressSchema.MarsSchemaIgnoresEarthGroup | src/components/address/address-form.tsx:83-87 | a valid Mars record stays valid whatever strings fill its Earth group |
| AddressSchema.EarthSchemaIgnoresMarsLot | src/components/address/address-form.tsx:63 | a valid Earth record stays valid whatever string fills its lot |
| AddressSchema.StrippedZipTooShort | src/components/address/address-form.tsx:59-62 | an Earth zip typed as "12a45" fails with the too-short-of-5 zip error |
| AddressSchema.InErrorsFor | src/components/address/address-form.tsx:29-92 | every error of a listed field appears in the collected errors |
| AddressSchema.MarsRecordValidates | src/components/address/address-form.tsx:66-92 | a Mars record with lot "1234", name "Ana Silva" and phone "11987654321" passes |
| Store.Replaced | src/lib/store.ts:24-29 | the update's `map` keeps the length, and each element becomes the new record exactly when its id matches |
| Store.Removed | src/lib/store.ts:31-34 | the `filter` leaves no record with the id and keeps the others in their relative order |
| Store.Ids | src/lib/store.ts:24-29 | the ids of a list, position by position |
| Store.AddressStore.constructor | src/lib/store.ts:17 | the store starts empty |
| Store.AddressStore.AddAddress | src/lib/store.ts:19-22 | the new list is the old list followed by the record |
| Store.AddressStore.UpdateAddress | src/lib/store.ts:24-29 | the new list is the mapped old list; with an unknown id it is identical to the old list |
| Store.AddressStore.RemoveAddress | src/lib/store.ts:31-34 | the new list is the filtered old list with no record of that id; with an absent id it is unchanged |
| Store.AppendKeepsPositions | src/lib/store.ts:19-22 | adding grows the list by one, puts the record last and keeps every earlier record in place |
| Store.AppendFreshKeepsUnique | src/lib/store.ts:19-22 | adding a record with a fresh id keeps the ids unique |
| Store.AppendTakenIdDuplicates | src/lib/store.ts:19-22 | adding a record whose id is already present makes the ids not unique |
| Store.ReplacedKeepsIds | src/lib/store.ts:24-29 | an update never changes which id is at which position |
| Store.ReplacedAbsentIsNoOp | src/lib/store.ts:26-28 | an update with an unknown id leaves the list identical |
| Store.ReplacedPresent | src/lib/store.ts:24-29 | after an update with a known id, the new record is in the list and is the only record with that id |
| Store.ReplacedKeepsUnique | src/lib/store.ts:24-29 | an update keeps unique ids unique |
| Store.ReplacedIdempotent | src/lib/store.ts:24-29 | updating twice with the same record equals updating once |
| Store.RemovedCounts | src/lib/store.ts:31-34 | every record with another id keeps its number of occurrences, and records with the id are gone |
| Store.RemovedAbsentIsNoOp | src/lib/store.ts:31-34 | removing an absent id leaves the list identical |
| Store.RemovedIdempotent | src/lib/store.ts:31-34 | removing twice equals removing once |
| Store.RemovedKeepsUnique | src/lib/store.ts:31-34 | removal keeps unique ids unique |
| Store.SubsequenceKeepsUnique | src/lib/store.ts:31-34 | deleting elements from a list with unique ids cannot create a duplicate |
| AddressList.LowerChar | src/components/address/address-list.tsx:26 | the lowered character is never upper case, a letter stays a letter, and only an upper-case ASCII letter changes, to its lower-case partner |
| AddressList.ToLower | src/components/address/address-list.tsx:26 | lowering keeps the length, leaves no upper-case letter, and leaves a text unchanged exactly when it has no upper-case letter |
| AddressList.ToLowerIdempotent | src/components/address/address-list.tsx:29-30 | lowercasing twice equals lowercasing once |
| AddressList.BlankUnderLowering | src/components/address/address-list.tsx:24 | lowercasing does not change whether a query is blank |
| AddressList.TrimStart | src/components/address/address-list.tsx:24 | dropping leading whitespace leaves a suffix that is empty exactly for a blank text and otherwise starts with a non-whitespace character |
| AddressList.TrimEnd | src/components/address/address-list.tsx:24 | dropping trailing whitespace leaves a prefix that is empty exactly for a blank text and otherwise ends with a non-whitespace character |
| AddressList.Trim | src/components/address/address-list.tsx:24 | `trim()` gives the empty string exactly when every character is ECMAScript whitespace; otherwise a text no longer than the input that starts and ends with non-whitespace |
| AddressList.TrimStartDropsBlank | src/components/address/address-list.tsx:24 | the prefix that leading-whitespace removal drops holds only whitespace |
| AddressList.TrimEndDropsBlank | src/components/address/address-list.tsx:24 | the suffix that trailing-whitespace removal drops holds only whitespace |
| AddressList.TrimIsSlice | src/components/address/address-list.tsx:24 | `trim()` returns the slice of the input with only whitespace before it and only whitespace after it |
| AddressList.Contains | src/components/address/address-list.tsx:29-31 | `includes` finds the empty needle in every text |
| AddressList.OccursAtStart | src/components/address/address-list.tsx:29 | an occurrence at position 0 is a prefix |
| AddressList.OccursShift | src/components/address/address-list.tsx:29 | an occurrence one position further in is an occurrence in the tail |
| AddressList.ContainsIffOccurs | src/components/address/address-list.tsx:29-31 | `includes` holds exactly when the needle occurs at some start position |
| AddressList.ContainsChar | src/components/address/address-list.tsx:31 | a one-character needle is found exactly when that character occurs |
| AddressList.ContainsFitsInside | src/components/address/address-list.tsx:29-31 | a needle longer than the text is never found |
| AddressList.Matches | src/components/address/address-list.tsx:22-49 | the filter callback shows only records of the requested type, and shows every record of that type when the search is blank |
| AddressList.FilteredAddresses | src/components/address/address-list.tsx:21-50 | the result is a subsequence of the list, and every record in it has the requested type and matches the search |
| AddressList.OfType | src/components/address/address-list.tsx:22 | the records of one type, in list order, each as often as in the list; no record of another type |
| AddressList.FilteredCounts | src/components/address/address-list.tsx:21 | every matching record appears as often as in the list, and nothing else appears |
| AddressList.BlankQueryShowsType | src/components/address/address-list.tsx:24 | an empty or whitespace-only search gives exactly the records of the type, in order |
| AddressList.QueryCaseIgnored | src/components/address/address-list.tsx:26 | lowercasing the search first does not change what matches |
| AddressList.MarsIgnoresEarthFields | src/components/address/address-list.tsx:35-47 | whether a Mars record matches does not depend on its Earth fields |
| AddressList.EarthIgnoresMarsLot | src/components/address/address-list.tsx:35-47 | whether an Earth record matches does not depend on its lot |
| AddressList.PhoneComparedRaw | src/components/address/address-list.tsx:28-31 | a phone holding "X" is not found by the search "X", because only the search is lowercased |
| AddressList.PhoneMatchesLoweredQuery | src/components/address/address-list.tsx:26-33 | a record of the requested type whose phone, as stored, contains the lowercased non-blank search is always shown |
| AddressList.LowerOpt | src/components/address/address-list.tsx:37-41 | `o?.toLowerCase()` is absent exactly when `o` is; otherwise a text of the same length that lowering leaves unchanged |
| AddressList.LowerContainsLowered | src/components/address/address-list.tsx:37-41 | lowering an optional field before `?.toLowerCase().includes` changes nothing |
| AddressList.TextFieldsComparedLowered | src/components/address/address-list.tsx:28-43 | label, name, address line, city, state and country are compared in lower case: lowering them in the record first never changes whether it matches |
| AddressList.ZipMatchesLoweredQuery | src/components/address/address-list.tsx:35-43 | an Earth record of the requested type whose stored zip contains the lowercased non-blank search is shown |
| AddressList.LotMatchesLoweredQuery | src/components/address/address-list.tsx:45-47 | a Mars record of the requested type whose stored lot contains the lowercased non-blank search is shown |
| AddressList.ZipComparedRaw | src/components/address/address-list.tsx:40 | an Earth record whose only text is the zip "X9" is not found by the search "X", because only the search is lowercased |
| AddressList.QueryNotTrimmed | src/components/address/address-list.tsx:24-26 | the search is lowercased but not trimmed: a Mars record labelled "Casa" matches "casa" but not " casa" |
| AddressList.FilteredAfterAppend | src/components/address/address-list.tsx:21 | after an add, the view is the old view plus the new record at the end if it matches |
| AddressForm.Rendered | src/components/address/address-form.tsx:304-425 | the text inputs on screen for a planet are exactly the keys that planet's schema checks: the Earth group for Earth, the lot for Mars, the common three for both |
| AddressForm.DefaultValuesShape | src/components/address/address-form.tsx:117-130 | the defaults are an Earth shipping draft with an empty id, every field holds a string, and only the label and the country hold text |
| AddressForm.DefaultValuesWellFormed | src/components/address/address-form.tsx:117-130 | the defaults are well formed: an empty lot and digit fields that are empty |
| AddressForm.WithField | src/components/address/address-form.tsx:294 | `field.onChange` sets one field and leaves every other field, the id, the tag and the type |
| AddressForm.Normalize | src/components/address/address-form.tsx:292-295 | the phone, zip and lot inputs store only digits, never more characters than typed; the other inputs store the text as typed |
| AddressForm.CommittedIsExclusive | src/components/address/address-form.tsx:142-155 | a valid, well-formed record always has exactly one populated group: a complete Earth group with an all-digit zip and an empty lot, or a four-digit lot and an empty Earth group |
| AddressForm.CommittedZipIsDigits | src/components/address/address-form.tsx:391-394 | a committed Earth record's zip is 5..10 digits |
| AddressForm.CommittedIgnoresId | src/components/address/address-form.tsx:133-138 | giving a committed record its id at submit time keeps it committed |
| AddressForm.AppendKeepsCommitted | src/components/address/address-form.tsx:136-138 | adding a committed record to a committed list keeps every record committed |
| AddressForm.ReplacedKeepsCommitted | src/components/address/address-form.tsx:134-135 | updating a committed list with a committed record keeps every record committed |
| AddressForm.RemovedKeepsCommitted | src/lib/store.ts:31-34 | removing by id from a committed list keeps every record committed |
| AddressForm.DefaultValuesReport | src/components/address/address-form.tsx:117-130 | the default values are well formed, and submitting them reports exactly name, phone, addressLine, state, city and zipCode |
| AddressForm.DefaultFieldOk | src/components/address/address-form.tsx:117-130 | the default values meet the Earth rules of label and country (and the unchecked lot) and fail the other Earth rules |
| AddressForm.Form.Valid | src/components/address/address-form.tsx:142-155 | the handlers' invariant; a valid form whose values pass the schema holds a committed record with exactly one populated group |
| AddressForm.Form.constructor | src/components/address/address-form.tsx:111-131 | values start as `initialData` or the defaults, the selected planet is their tag, and the invariant holds when the initial record is well formed |
| AddressForm.Form.HandlePlanetChange | src/components/address/address-form.tsx:142-155 | switching to Mars sets the five Earth fields to "" and leaves the lot; switching to Earth sets only the lot to ""; the invariant is kept |
| AddressForm.Form.Input | src/components/address/address-form.tsx:288-296 | an on-screen input sets its field to the normalised text and nothing else; the invariant is kept |
| AddressForm.Form.SetAddressType | src/components/address/address-form.tsx:199-201 | the type select changes only `addressType` |
| AddressForm.Form.Submit | src/components/address/address-form.tsx:133-140 | errors leave the store alone; otherwise an edit (`initialData?.id` truthy, a present non-empty id) updates under the original id and a new form appends under the fresh id; a valid form keeps a committed store committed; unique ids stay unique when the form edits or the fresh id is not taken |

## Left out

- Persistence through the `persist` middleware and `localStorage` (src/lib/store.ts:15, 36-38): restoring, corrupt snapshots and flushing are foreign library I/O. The store is modelled in memory only. A round trip through storage is not modelled.
- The zod and react-hook-form machinery: the resolver, the error object and the message strings. Errors are modelled as a field and a rule. The discriminator error for an unknown `planetType` cannot arise, because the tag is a two-valued datatype here.
- The `id: z.string().optional()` key: form values always carry an id (`""` by default, or the edited record's), so the model's form values are `Address` records.
- `Date.now().toString()`: the new id is the `freshId` parameter of `Form.Submit`.
- The country lookup (src/lib/use-countries.ts) and `CountrySelect`: network I/O and UI. The country input is any string.
- `toLowerCase` beyond ASCII: the model lowers `A`..`Z` only.
- String length: JavaScript counts UTF-16 code units, while the model counts Dafny characters (Unicode scalar values). These differ only for characters outside the Basic Multilingual Plane.
- The inputs' `maxLength` truncation, all rendering, the `onSave`/`onCancel` callbacks, and the "Definir localização" button: UI only.
- The label input is a select with four options. The model lets it store any string.
- Form.Input: requires the input to be on screen for the selected planet. An input that is not rendered cannot fire, so this precondition only excludes impossible calls.
