/** The list view's `filteredAddresses` (src/components/address/address-list.tsx):
    an `Array.filter` over the store's list that keeps the records of one
    `addressType` which match the search text. */
module AddressList {
  import opened Seqs
  import opened Types

  /* ---------------------------------------------------------------------- */
  /* String primitives                                                       */
  /* ---------------------------------------------------------------------- */

  /** `toLowerCase`, restricted to ASCII letters: the result is never an
      upper-case letter, a letter stays a letter, and only upper-case
      letters change. */
  function LowerChar(c: char): (d: char)
    ensures !('A' <= d <= 'Z')
    ensures ('a' <= d <= 'z') <==> ('a' <= c <= 'z' || 'A' <= c <= 'Z')
    ensures d != c ==> 'A' <= c <= 'Z' && d as int == c as int + 32
  {
    if 'A' <= c <= 'Z' then (c as int + 32) as char else c
  }

  /** Lowers every character; the text is left as it is exactly when it
      holds no upper-case letter. */
  function ToLower(s: string): (r: string)
    ensures |r| == |s|
    ensures forall i :: 0 <= i < |s| ==> r[i] == LowerChar(s[i])
    ensures forall i :: 0 <= i < |r| ==> !('A' <= r[i] <= 'Z')
    ensures r == s <==> forall i :: 0 <= i < |s| ==> !('A' <= s[i] <= 'Z')
  {
    seq(|s|, i requires 0 <= i < |s| => LowerChar(s[i]))
  }

  lemma ToLowerIdempotent(s: string)
    ensures ToLower(ToLower(s)) == ToLower(s)
  {
  }

  /** The characters `String.prototype.trim` removes: WhiteSpace and
      LineTerminator of ECMAScript. */
  predicate IsJsWhitespace(c: char) {
    c == '\t' || c == '\n' || c == '\U{000B}' || c == '\U{000C}' || c == '\r' || c == ' '
    || c == '\U{00A0}' || c == '\U{1680}' || ('\U{2000}' <= c <= '\U{200A}')
    || c == '\U{2028}' || c == '\U{2029}' || c == '\U{202F}' || c == '\U{205F}'
    || c == '\U{3000}' || c == '\U{FEFF}'
  }

  /** Every character is whitespace: the reference meaning of a blank search. */
  predicate IsBlank(s: string) {
    forall i :: 0 <= i < |s| ==> IsJsWhitespace(s[i])
  }

  /** `trimStart`: drops leading whitespace, leaving a suffix of `s`. */
  function TrimStart(s: string): (r: string)
    ensures |r| <= |s| && r == s[|s| - |r|..]
    ensures r == [] <==> IsBlank(s)
    ensures r != [] ==> !IsJsWhitespace(r[0])
  {
    if s != [] && IsJsWhitespace(s[0]) then
      var r := TrimStart(s[1..]);
      assert IsBlank(s) <==> IsBlank(s[1..]) by {
        assert forall i :: 0 < i < |s| ==> s[i] == s[1..][i - 1];
      }
      r
    else s
  }

  /** `trimEnd`: drops trailing whitespace, leaving a prefix of `s`. */
  function TrimEnd(s: string): (r: string)
    ensures |r| <= |s| && r == s[..|r|]
    ensures r == [] <==> IsBlank(s)
    ensures r != [] ==> !IsJsWhitespace(r[|r| - 1])
  {
    if s != [] && IsJsWhitespace(s[|s| - 1]) then
      var r := TrimEnd(s[..|s| - 1]);
      assert IsBlank(s) <==> IsBlank(s[..|s| - 1]) by {
        assert forall i :: 0 <= i < |s| - 1 ==> s[i] == s[..|s| - 1][i];
      }
      r
    else s
  }

  /** `trim`: the empty string exactly for a blank text; otherwise a text no
      longer than `s` that starts and ends with a non-whitespace character. */
  function Trim(s: string): (r: string)
    ensures r == [] <==> IsBlank(s)
    ensures r != [] ==> !IsJsWhitespace(r[0]) && !IsJsWhitespace(r[|r| - 1])
    ensures |r| <= |s|
  {
    var t := TrimStart(s);
    var r := TrimEnd(t);
    assert t != [] ==> !IsBlank(t);
    assert r != [] ==> r[0] == t[0];
    r
  }

  /** What `trimStart` drops is whitespace only. */
  lemma {:induction false} TrimStartDropsBlank(s: string)
    ensures IsBlank(s[..|s| - |TrimStart(s)|])
  {
    if s != [] && IsJsWhitespace(s[0]) {
      TrimStartDropsBlank(s[1..]);
      var k := |s| - |TrimStart(s)|;
      assert s[..k] == [s[0]] + s[1..][..k - 1];
    }
  }

  /** What `trimEnd` drops is whitespace only. */
  lemma {:induction false} TrimEndDropsBlank(s: string)
    ensures IsBlank(s[|TrimEnd(s)|..])
  {
    if s != [] && IsJsWhitespace(s[|s| - 1]) {
      TrimEndDropsBlank(s[..|s| - 1]);
      var k := |TrimEnd(s)|;
      assert s[k..] == s[..|s| - 1][k..] + [s[|s| - 1]];
    }
  }

  /** `r` is the slice of `s` from position `i`, with only whitespace before
      and after it. */
  predicate BlankAround(r: string, s: string, i: nat) {
    i + |r| <= |s| && r == s[i..i + |r|] && IsBlank(s[..i]) && IsBlank(s[i + |r|..])
  }

  /** A prefix `r` of a suffix `t` of `s`, each dropping only whitespace, is
      a slice of `s` with only whitespace around it. */
  lemma SliceBetweenBlanks(s: string, i: nat, t: string, r: string)
    requires i <= |s| && t == s[i..] && |r| <= |t| && r == t[..|r|]
    requires IsBlank(s[..i]) && IsBlank(t[|r|..])
    ensures BlankAround(r, s, i)
  {
    assert s[i + |r|..] == t[|r|..];
  }

  /** `trim` yields the slice of `s` that starts where `trimStart` stops and
      has only whitespace before and after it. */
  lemma TrimIsSlice(s: string)
    ensures BlankAround(Trim(s), s, |s| - |TrimStart(s)|)
  {
    var t, r := TrimStart(s), Trim(s);
    var i := |s| - |t|;
    assert r == TrimEnd(t);
    assert t == s[i..] && |r| <= |t| && r == t[..|r|];
    assert IsBlank(s[..i]) by { TrimStartDropsBlank(s); }
    assert IsBlank(t[|r|..]) by { TrimEndDropsBlank(t); }
    SliceBetweenBlanks(s, i, t, r);
  }

  lemma BlankUnderLowering(s: string)
    ensures IsBlank(ToLower(s)) <==> IsBlank(s)
  {
  }

  /** `hay.includes(needle)`, scanning start positions left to right. */
  predicate Contains(hay: string, needle: string)
    ensures needle == [] ==> Contains(hay, needle)
    decreases |hay|
  {
    needle <= hay || (hay != [] && Contains(hay[1..], needle))
  }

  /** `needle` occurs in `hay` starting at position `i`. */
  ghost predicate OccursAt(hay: string, needle: string, i: int) {
    0 <= i && i + |needle| <= |hay| && hay[i..i + |needle|] == needle
  }

  /** An occurrence at position 0 is a prefix. */
  lemma OccursAtStart(hay: string, needle: string)
    ensures OccursAt(hay, needle, 0) <==> needle <= hay
  {
    if |needle| <= |hay| {
      assert hay[0..|needle|] == hay[..|needle|];
    }
  }

  /** An occurrence at `i + 1` is an occurrence at `i` in the tail. */
  lemma OccursShift(hay: string, needle: string, i: nat)
    requires hay != []
    ensures OccursAt(hay, needle, i + 1) <==> OccursAt(hay[1..], needle, i)
  {
    if i + 1 + |needle| <= |hay| {
      assert hay[i + 1..i + 1 + |needle|] == hay[1..][i..i + |needle|];
    }
  }

  /** `includes` is substring containment: some start position holds the needle. */
  lemma {:induction false} ContainsIffOccurs(hay: string, needle: string)
    ensures Contains(hay, needle) <==> exists i :: OccursAt(hay, needle, i)
    decreases |hay|
  {
    OccursAtStart(hay, needle);
    if exists i :: OccursAt(hay, needle, i) {
      var i :| OccursAt(hay, needle, i);
      if i != 0 {
        OccursShift(hay, needle, i - 1);
        ContainsIffOccurs(hay[1..], needle);
      }
    }
    if hay != [] && Contains(hay[1..], needle) {
      ContainsIffOccurs(hay[1..], needle);
      var j :| OccursAt(hay[1..], needle, j);
      OccursShift(hay, needle, j);
    }
  }

  /** A needle longer than the text is never found. */
  lemma {:induction false} ContainsFitsInside(hay: string, needle: string)
    ensures Contains(hay, needle) ==> |needle| <= |hay|
    decreases |hay|
  {
    if hay != [] {
      ContainsFitsInside(hay[1..], needle);
    }
  }

  /** A one-character needle is found only where that character occurs. */
  lemma {:induction false} ContainsChar(hay: string, c: char)
    ensures Contains(hay, [c]) <==> c in hay
    decreases |hay|
  {
    if hay != [] {
      ContainsChar(hay[1..], c);
      assert hay == [hay[0]] + hay[1..];
    }
  }

  /** `o?.toLowerCase().includes(q)`: an absent value matches nothing. */
  predicate LowerContains(o: Option<string>, q: string) {
    o.Some? && Contains(ToLower(o.value), q)
  }

  /** `o?.includes(q)`. */
  predicate RawContains(o: Option<string>, q: string) {
    o.Some? && Contains(o.value, q)
  }

  /* ---------------------------------------------------------------------- */
  /* The filter predicate                                                    */
  /* ---------------------------------------------------------------------- */

  /** The test `filteredAddresses` applies to one record, branch by branch:
      wrong type, blank search, common fields (phone raw), Earth fields
      (zip raw), the Mars lot (raw). The search text is lowercased but not
      trimmed. */
  predicate Matches(a: Address, t: AddressType, searchQuery: string)
    ensures Matches(a, t, searchQuery) ==> a.addressType == t
    ensures a.addressType == t && IsBlank(searchQuery) ==> Matches(a, t, searchQuery)
  {
    if a.addressType != t then false
    else if Trim(searchQuery) == [] then true
    else
      var q := ToLower(searchQuery);
      if Contains(ToLower(a.labelText), q) || Contains(ToLower(a.name), q) || Contains(a.phone, q) then true
      else if a.planetType == Earth
              && (LowerContains(a.addressLine, q) || LowerContains(a.city, q) || LowerContains(a.state, q)
                  || RawContains(a.zipCode, q) || LowerContains(a.country, q)) then true
      else if a.planetType == Mars && RawContains(a.marsLot, q) then true
      else false
  }

  /** `filteredAddresses`. */
  function FilteredAddresses(addresses: seq<Address>, t: AddressType, searchQuery: string): (r: seq<Address>)
    ensures |r| <= |addresses|
    ensures forall i :: 0 <= i < |r| ==> r[i].addressType == t && Matches(r[i], t, searchQuery)
    ensures IsSubsequence(r, addresses)
  {
    Filter(addresses, (a: Address) => Matches(a, t, searchQuery))
  }

  /** The records of one type, in list order. */
  function OfType(addresses: seq<Address>, t: AddressType): (r: seq<Address>)
    ensures forall i :: 0 <= i < |r| ==> r[i].addressType == t
    ensures IsSubsequence(r, addresses)
    ensures forall a :: multiset(r)[a] == if a.addressType == t then multiset(addresses)[a] else 0
  {
    FilterCounts(addresses, (a: Address) => a.addressType == t);
    Filter(addresses, (a: Address) => a.addressType == t)
  }

  /* ---------------------------------------------------------------------- */
  /* Properties                                                              */
  /* ---------------------------------------------------------------------- */

  /** Nothing that matches is lost: each matching record appears as often as
      in the list, and nothing else appears. */
  lemma FilteredCounts(addresses: seq<Address>, t: AddressType, q: string)
    ensures forall a :: multiset(FilteredAddresses(addresses, t, q))[a]
                        == if Matches(a, t, q) then multiset(addresses)[a] else 0
  {
    FilterCounts(addresses, (a: Address) => Matches(a, t, q));
  }

  /** An empty or whitespace-only search shows exactly the records of the type. */
  lemma BlankQueryShowsType(addresses: seq<Address>, t: AddressType, q: string)
    requires IsBlank(q)
    ensures FilteredAddresses(addresses, t, q) == OfType(addresses, t)
  {
    FilterCongruent(addresses, (a: Address) => Matches(a, t, q), (a: Address) => a.addressType == t);
  }

  /** Matching ignores the case of the search text. */
  lemma QueryCaseIgnored(a: Address, t: AddressType, q: string)
    ensures Matches(a, t, q) == Matches(a, t, ToLower(q))
  {
    BlankUnderLowering(q);
    ToLowerIdempotent(q);
  }

  /** A Mars record is never found through its Earth fields. */
  lemma MarsIgnoresEarthFields(a: Address, t: AddressType, q: string,
                               line: Option<string>, country: Option<string>, state: Option<string>,
                               city: Option<string>, zip: Option<string>)
    requires a.planetType == Mars
    ensures Matches(a, t, q) ==
            Matches(a.(addressLine := line, country := country, state := state, city := city, zipCode := zip), t, q)
  {
  }

  /** An Earth record is never found through its Mars lot. */
  lemma EarthIgnoresMarsLot(a: Address, t: AddressType, q: string, lot: Option<string>)
    requires a.planetType == Earth
    ensures Matches(a, t, q) == Matches(a.(marsLot := lot), t, q)
  {
  }

  /** The phone is searched as stored: an upper-case letter in it can never
      be hit, since the search text is lowercased first. */
  lemma PhoneComparedRaw(a: Address, t: AddressType)
    requires a.addressType == t && a.planetType == Mars && a.marsLot == None
    requires a.labelText == "Casa" && a.name == "Ana" && a.phone == "X123"
    ensures Contains(a.phone, "X") && !Matches(a, t, "X")
  {
    assert "X" <= a.phone;
    assert !IsBlank("X") by {
      assert !IsJsWhitespace("X"[0]);
    }
    assert ToLower("X") == ['x'];
    ContainsChar(ToLower(a.labelText), 'x');
    ContainsChar(ToLower(a.name), 'x');
    ContainsChar(a.phone, 'x');
    assert 'x' !in a.phone;
    assert 'x' !in ToLower(a.labelText) by {
      assert ToLower(a.labelText) == "casa";
    }
    assert 'x' !in ToLower(a.name) by {
      assert ToLower(a.name) == "ana";
    }
  }

  /** The phone is searched as stored, against the lowercased search text:
      whenever it holds that text, the record of the right type is shown. */
  lemma PhoneMatchesLoweredQuery(a: Address, t: AddressType, q: string)
    requires a.addressType == t && !IsBlank(q) && Contains(a.phone, ToLower(q))
    ensures Matches(a, t, q)
  {
  }

  /** `o` with its text lowercased, as `o?.toLowerCase()` yields it. */
  function LowerOpt(o: Option<string>): (r: Option<string>)
    ensures r.Some? <==> o.Some?
    ensures r.Some? ==> |r.value| == |o.value| && ToLower(r.value) == r.value
  {
    match o
    case None => None
    case Some(x) => Some(ToLower(x))
  }

  /** Lowering a field before `o?.toLowerCase().includes(q)` changes nothing. */
  lemma LowerContainsLowered(o: Option<string>, q: string)
    ensures LowerContains(LowerOpt(o), q) == LowerContains(o, q)
  {
    if o.Some? {
      ToLowerIdempotent(o.value);
    }
  }

  /** Label, name, address line, city, state and country are compared in
      lower case: lowering them in the record first changes nothing. */
  lemma TextFieldsComparedLowered(a: Address, t: AddressType, q: string)
    ensures Matches(a, t, q)
            == Matches(a.(labelText := ToLower(a.labelText), name := ToLower(a.name),
                          addressLine := LowerOpt(a.addressLine), city := LowerOpt(a.city),
                          state := LowerOpt(a.state), country := LowerOpt(a.country)), t, q)
  {
    var lq := ToLower(q);
    LowerContainsLowered(Some(a.labelText), lq);
    LowerContainsLowered(Some(a.name), lq);
    LowerContainsLowered(a.addressLine, lq);
    LowerContainsLowered(a.city, lq);
    LowerContainsLowered(a.state, lq);
    LowerContainsLowered(a.country, lq);
  }

  /** The zip is searched as stored: whenever it holds the lowercased search
      text, the Earth record of the right type is shown. */
  lemma ZipMatchesLoweredQuery(a: Address, t: AddressType, q: string)
    requires a.addressType == t && a.planetType == Earth && !IsBlank(q)
    requires a.zipCode.Some? && Contains(a.zipCode.value, ToLower(q))
    ensures Matches(a, t, q)
  {
  }

  /** The lot is searched as stored: whenever it holds the lowercased search
      text, the Mars record of the right type is shown. */
  lemma LotMatchesLoweredQuery(a: Address, t: AddressType, q: string)
    requires a.addressType == t && a.planetType == Mars && !IsBlank(q)
    requires a.marsLot.Some? && Contains(a.marsLot.value, ToLower(q))
    ensures Matches(a, t, q)
  {
  }

  /** An upper-case letter in a zip is never hit: the search "X" is lowered
      to "x" before it meets the zip "X9". */
  lemma ZipComparedRaw(a: Address, t: AddressType)
    requires a.addressType == t && a.planetType == Earth
    requires a.labelText == "" && a.name == "" && a.phone == ""
    requires a.addressLine == None && a.city == None && a.state == None && a.country == None
    requires a.zipCode == Some("X9")
    ensures Contains(a.zipCode.value, "X") && !Matches(a, t, "X")
  {
    assert "X" <= a.zipCode.value;
    assert !IsBlank("X") by {
      assert !IsJsWhitespace("X"[0]);
    }
    assert ToLower("X") == ['x'];
    ContainsFitsInside(ToLower(a.labelText), ['x']);
    ContainsFitsInside(ToLower(a.name), ['x']);
    ContainsFitsInside(a.phone, ['x']);
    ContainsChar(a.zipCode.value, 'x');
    assert 'x' !in a.zipCode.value;
  }

  /** The lowercase forms of the texts `QueryNotTrimmed` uses. */
  lemma LowerCasa()
    ensures ToLower("Casa") == "casa" && ToLower("casa") == "casa" && ToLower(" casa") == " casa"
  {
    assert ToLower("Casa")[0] == 'c';
  }

  /** The search is lowercased but not trimmed: a leading space makes the
      label "Casa" no longer match. */
  lemma QueryNotTrimmed(a: Address, t: AddressType)
    requires a.addressType == t && a.planetType == Mars
    requires a.labelText == "Casa" && a.name == "" && a.phone == "" && a.marsLot == None
    ensures Matches(a, t, "casa") && !Matches(a, t, " casa")
  {
    assert !IsBlank("casa") by {
      assert !IsJsWhitespace("casa"[0]);
    }
    assert !IsBlank(" casa") by {
      assert !IsJsWhitespace(" casa"[1]);
    }
    LowerCasa();
    assert "casa" <= ToLower(a.labelText);
    ContainsFitsInside(ToLower(a.labelText), " casa");
    ContainsFitsInside(ToLower(a.name), " casa");
    ContainsFitsInside(a.phone, " casa");
  }

  /** A record added to the store shows up at the end of the view exactly when it matches. */
  lemma FilteredAfterAppend(addresses: seq<Address>, a: Address, t: AddressType, q: string)
    ensures FilteredAddresses(addresses + [a], t, q)
            == FilteredAddresses(addresses, t, q) + (if Matches(a, t, q) then [a] else [])
  {
    FilterConcat(addresses, [a], (x: Address) => Matches(x, t, q));
  }
}
