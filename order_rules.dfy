/**
 * The pure parts of the order dialog: the option price tables, the final-price
 * computation and the per-field checks of the personal-details form.
 */
module OrderRules {
  import opened Wrappers
  import opened Text
  import Seqs

  /** An entry of an option table: the option's value and its surcharge. */
  datatype PricedOption = PricedOption(value: string, price: int)

  function RamOptions(): seq<PricedOption> {
    [PricedOption("8GB", 0), PricedOption("16GB", 200), PricedOption("32GB", 500), PricedOption("64GB", 1000)]
  }

  function StorageOptions(): seq<PricedOption> {
    [PricedOption("256GB", 0), PricedOption("512GB", 150), PricedOption("1TB", 300), PricedOption("2TB", 600)]
  }

  function ColorKeys(): seq<string> {
    ["black", "grey", "darkGreen"]
  }

  /** `options.find(o => o.value === key)?.price`: the price of the first entry with that value, if any. */
  function Find(options: seq<PricedOption>, key: string): (r: Option<int>)
    ensures r.None? <==> forall i :: 0 <= i < |options| ==> options[i].value != key
    ensures r.Some? ==> exists i :: 0 <= i < |options| && options[i].value == key && options[i].price == r.value
                                   && forall j :: 0 <= j < i ==> options[j].value != key
  {
    if options == [] then None
    else if options[0].value == key then Some(options[0].price)
    else
      var r := Find(options[1..], key);
      assert forall i :: 1 <= i < |options| ==> options[i] == options[1..][i - 1];
      assert r.Some? ==> exists i :: 1 <= i < |options| && options[i].value == key && options[i].price == r.value
                                     && forall j :: 0 <= j < i ==> options[j].value != key by {
        if r.Some? {
          var i :| 0 <= i < |options[1..]| && options[1..][i].value == key && options[1..][i].price == r.value
                   && forall j :: 0 <= j < i ==> options[1..][j].value != key;
          assert forall j :: 0 <= j < i + 1 ==> options[j].value != key by {
            forall j | 0 <= j < i + 1 ensures options[j].value != key {
              if j > 0 { assert options[j] == options[1..][j - 1]; }
            }
          }
        }
      }
      r
  }

  /** `find(...)?.price || 0`: an option missing from the table costs nothing. */
  function Surcharge(options: seq<PricedOption>, key: string): int {
    Find(options, key).GetOr(0)
  }

  /** Base price plus the RAM and storage surcharges. */
  function CalculatePrice(basePrice: int, ram: string, storage: string): (r: int)
    ensures basePrice <= r <= basePrice + 1600
    ensures (forall i :: 0 <= i < |RamOptions()| ==> RamOptions()[i].value != ram)
              ==> r == basePrice + Surcharge(StorageOptions(), storage)
    ensures (forall i :: 0 <= i < |StorageOptions()| ==> StorageOptions()[i].value != storage)
              ==> r == basePrice + Surcharge(RamOptions(), ram)
    ensures ((forall i :: 0 <= i < |RamOptions()| ==> RamOptions()[i].value != ram) &&
             (forall i :: 0 <= i < |StorageOptions()| ==> StorageOptions()[i].value != storage)) ==> r == basePrice
  {
    basePrice + Surcharge(RamOptions(), ram) + Surcharge(StorageOptions(), storage)
  }

  /** The surcharge of a listed option is that entry's price. */
  lemma ListedSurcharge(options: seq<PricedOption>, i: nat)
    requires i < |options|
    requires forall j, k :: 0 <= j < k < |options| ==> options[j].value != options[k].value
    ensures Surcharge(options, options[i].value) == options[i].price
  {
  }

  /** A listed RAM option and a listed storage option add exactly their two table prices. */
  lemma ListedPairPrice(basePrice: int, i: nat, j: nat)
    requires i < |RamOptions()| && j < |StorageOptions()|
    ensures CalculatePrice(basePrice, RamOptions()[i].value, StorageOptions()[j].value)
            == basePrice + RamOptions()[i].price + StorageOptions()[j].price
  {
    ListedSurcharge(RamOptions(), i);
    ListedSurcharge(StorageOptions(), j);
  }

  /** With the default selections, 16GB and 512GB, the price is the base price plus 350. */
  lemma DefaultSelectionPrice(basePrice: int)
    ensures CalculatePrice(basePrice, "16GB", "512GB") == basePrice + 350
  {
    ListedSurcharge(RamOptions(), 1);
    ListedSurcharge(StorageOptions(), 1);
  }

  datatype Field = FirstName | LastName | Address | City | Mobile | Email | ZipCode

  datatype PersonalDetails = PersonalDetails(
    firstName: string, lastName: string, address: string, city: string,
    mobile: string, email: string, zipCode: string)

  function EmptyDetails(): PersonalDetails {
    PersonalDetails("", "", "", "", "", "", "")
  }

  function Get(d: PersonalDetails, f: Field): string {
    match f
    case FirstName => d.firstName
    case LastName => d.lastName
    case Address => d.address
    case City => d.city
    case Mobile => d.mobile
    case Email => d.email
    case ZipCode => d.zipCode
  }

  /** `{ ...d, [f]: v }`. */
  function Set(d: PersonalDetails, f: Field, v: string): (r: PersonalDetails)
    ensures Get(r, f) == v
    ensures forall g :: g != f ==> Get(r, g) == Get(d, g)
  {
    match f
    case FirstName => d.(firstName := v)
    case LastName => d.(lastName := v)
    case Address => d.(address := v)
    case City => d.(city := v)
    case Mobile => d.(mobile := v)
    case Email => d.(email := v)
    case ZipCode => d.(zipCode := v)
  }

  /** `/^[\+]?[1-9][\d]{0,15}$/`: an optional plus, a non-zero digit, then at most fifteen digits. */
  predicate MobilePattern(s: string) {
    var k := if |s| > 0 && s[0] == '+' then 1 else 0;
    k < |s| <= k + 16 && '1' <= s[k] <= '9' && forall i :: k < i < |s| ==> IsDigit(s[i])
  }

  /** Every string the mobile pattern accepts is built from its three parts. */
  lemma MobilePatternShape(s: string)
    requires MobilePattern(s)
    ensures 1 <= |s| <= 17
    ensures forall i :: 0 <= i < |s| ==> IsDigit(s[i]) || (i == 0 && s[i] == '+')
    ensures var k := if s[0] == '+' then 1 else 0; k < |s| && s[k] != '0'
  {
  }

  /** And every string built from the three parts is accepted. */
  lemma MobilePatternAccepts(sign: string, first: char, rest: string)
    requires sign == "" || sign == "+"
    requires '1' <= first <= '9' && |rest| <= 15 && AllDigits(rest)
    ensures MobilePattern(sign + [first] + rest)
  {
    var s := sign + [first] + rest;
    assert forall i :: |sign| < i < |s| ==> s[i] == rest[i - |sign| - 1];
  }

  /** `/^\d{5}(-\d{4})?$/`: five digits, optionally a dash and four more digits. */
  predicate ZipPattern(z: string) {
    (|z| == 5 && AllDigits(z)) || (|z| == 10 && AllDigits(z[..5]) && z[5] == '-' && AllDigits(z[6..]))
  }

  /** The ZIP pattern is applied to the untrimmed value: surrounding whitespace makes it fail. */
  lemma ZipPatternRejectsPadding(z: string)
    ensures !ZipPattern([' '] + z) && !ZipPattern(z + [' '])
  {
    var a, b := [' '] + z, z + [' '];
    assert !IsDigit(a[0]) && !IsDigit(b[|b| - 1]);
    if |a| == 10 { assert a[..5][0] == a[0]; }
    if |b| == 10 { assert b[6..][3] == b[9]; }
  }

  /** Neither whitespace nor an at sign: JavaScript's `[^\s@]`. */
  predicate PlainChar(c: char) {
    !IsSpace(c) && c != '@'
  }

  predicate Plain(s: string) {
    forall i :: 0 <= i < |s| ==> PlainChar(s[i])
  }

  /** `/^[^\s@]+@[^\s@]+\.[^\s@]+$/`: some position of the at sign, tried from left to right, makes the rest match. */
  predicate EmailPattern(e: string) {
    AtSearch(e, 1)
  }

  /** Some position of the at sign from `i` on splits `e` as the pattern demands. */
  predicate AtSearch(e: string, i: nat)
    decreases |e| - i
  {
    i < |e| && (EmailSplitAt(e, i) || AtSearch(e, i + 1))
  }

  /** The search succeeds exactly when one of the positions it tries works. */
  lemma {:induction false} AtSearchIff(e: string, i: nat)
    ensures AtSearch(e, i) <==> exists k | i <= k < |e| :: EmailSplitAt(e, k)
    decreases |e| - i
  {
    if i < |e| {
      AtSearchIff(e, i + 1);
    }
  }

  /** The at sign is at `i`, the text before it is plain and the text after it is a plain, dotted domain. */
  predicate EmailSplitAt(e: string, i: int) {
    0 < i < |e| && e[i] == '@' && Plain(e[..i]) && DomainPattern(e[i + 1..])
  }

  /** `[^\s@]+\.[^\s@]+`, one alternative per position of the dot. */
  predicate DomainPattern(d: string) {
    exists j | 0 < j < |d| - 1 :: d[j] == '.' && Plain(d[..j]) && Plain(d[j + 1..])
  }

  /** A domain matches when it is plain and has a dot that is neither its first nor its last character. */
  lemma DomainPatternIff(d: string)
    ensures DomainPattern(d) <==> Plain(d) && exists j :: 0 < j < |d| - 1 && d[j] == '.'
  {
    if DomainPattern(d) {
      var j :| 0 < j < |d| - 1 && d[j] == '.' && Plain(d[..j]) && Plain(d[j + 1..]);
      forall k | 0 <= k < |d|
        ensures PlainChar(d[k])
      {
        if k < j { assert d[k] == d[..j][k]; }
        else if k > j { assert d[k] == d[j + 1..][k - j - 1]; }
      }
    }
    if Plain(d) && exists j :: 0 < j < |d| - 1 && d[j] == '.' {
      var j :| 0 < j < |d| - 1 && d[j] == '.';
      assert Plain(d[..j]) && Plain(d[j + 1..]);
    }
  }

  /** No whitespace anywhere, exactly one at sign, not first, and a dot after it with text on both sides. */
  ghost predicate EmailShape(e: string) {
    (forall k :: 0 <= k < |e| ==> !IsSpace(e[k])) &&
    exists i :: 0 < i < |e| && e[i] == '@' && (forall k :: 0 <= k < |e| && e[k] == '@' ==> k == i) &&
      exists j :: i + 1 < j < |e| - 1 && e[j] == '.'
  }

  /** A string split at an at sign is plain apart from that sign exactly when both sides are plain. */
  lemma PlainAround(e: string, i: int)
    requires 0 <= i < |e|
    ensures (Plain(e[..i]) && Plain(e[i + 1..])) <==> forall k :: 0 <= k < |e| && k != i ==> PlainChar(e[k])
  {
    if Plain(e[..i]) && Plain(e[i + 1..]) {
      forall k | 0 <= k < |e| && k != i
        ensures PlainChar(e[k])
      {
        if k < i { assert e[k] == e[..i][k]; }
        else { assert e[k] == e[i + 1..][k - i - 1]; }
      }
    }
  }

  /** Every address the pattern accepts has the e-mail shape. */
  lemma EmailPatternGivesShape(e: string)
    requires EmailPattern(e)
    ensures EmailShape(e)
  {
    AtSearchIff(e, 1);
    var i :| 1 <= i < |e| && EmailSplitAt(e, i);
    var d := e[i + 1..];
    DomainPatternIff(d);
    PlainAround(e, i);
    var j :| 0 < j < |d| - 1 && d[j] == '.';
    assert e[i + 1 + j] == '.';
  }

  /** Every address with the e-mail shape is accepted by the pattern. */
  lemma ShapeGivesEmailPattern(e: string)
    requires EmailShape(e)
    ensures EmailPattern(e)
  {
    var i :| 0 < i < |e| && e[i] == '@' && (forall k :: 0 <= k < |e| && e[k] == '@' ==> k == i) &&
      exists j :: i + 1 < j < |e| - 1 && e[j] == '.';
    var j :| i + 1 < j < |e| - 1 && e[j] == '.';
    var d := e[i + 1..];
    PlainAround(e, i);
    assert d[j - i - 1] == '.';
    DomainPatternIff(d);
    assert EmailSplitAt(e, i);
    AtSearchIff(e, 1);
  }

  /** The pattern accepts exactly the strings with the e-mail shape. */
  lemma EmailPatternIsShape(e: string)
    ensures EmailPattern(e) <==> EmailShape(e)
  {
    if EmailPattern(e) {
      EmailPatternGivesShape(e);
    }
    if EmailShape(e) {
      ShapeGivesEmailPattern(e);
    }
  }

  /** The message shown under a field of the details form, or None when the field passes. */
  function FieldError(d: PersonalDetails, f: Field): Option<string> {
    match f
    case FirstName => if IsBlank(d.firstName) then Some("First name is required") else None
    case LastName => if IsBlank(d.lastName) then Some("Last name is required") else None
    case Address => if IsBlank(d.address) then Some("Address is required") else None
    case City => if IsBlank(d.city) then Some("City is required") else None
    case Mobile =>
      if IsBlank(d.mobile) then Some("Mobile number is required")
      else if !MobilePattern(RemoveSpaces(d.mobile)) then Some("Please enter a valid mobile number")
      else None
    case ZipCode =>
      if IsBlank(d.zipCode) then Some("ZIP code is required")
      else if !ZipPattern(d.zipCode) then Some("Please enter a valid ZIP code")
      else None
    case Email =>
      if d.email != "" && !EmailPattern(d.email) then Some("Please enter a valid email address") else None
  }

  /** Every field passes. */
  predicate FormValid(d: PersonalDetails) {
    forall f :: FieldError(d, f).None?
  }

  /** The four plain required fields fail exactly when trimming leaves nothing. */
  lemma RequiredFieldFailsIffBlank(d: PersonalDetails, f: Field)
    requires f == FirstName || f == LastName || f == Address || f == City
    ensures FieldError(d, f).Some? <==> Trim(Get(d, f)) == ""
  {
    TrimEmptyIffBlank(Get(d, f));
  }

  /** An empty e-mail address is accepted; a non-empty one must have the e-mail shape. */
  lemma EmailOptional(d: PersonalDetails)
    ensures FieldError(d, Email).None? <==> d.email == "" || EmailShape(d.email)
  {
    EmailPatternIsShape(d.email);
  }

  /** A string with a non-whitespace character is not blank. */
  lemma NotBlank(s: string, i: nat)
    requires i < |s| && !IsSpace(s[i])
    ensures !IsBlank(s)
  {
  }

  /** An empty mobile number is reported as missing. */
  lemma EmptyMobileRejected(d: PersonalDetails)
    requires d.mobile == ""
    ensures FieldError(d, Mobile) == Some("Mobile number is required")
  {
  }

  /** The form passes once each field meets its own condition. */
  lemma FormValidWhen(d: PersonalDetails)
    requires !IsBlank(d.firstName) && !IsBlank(d.lastName) && !IsBlank(d.address) && !IsBlank(d.city)
    requires !IsBlank(d.mobile) && MobilePattern(RemoveSpaces(d.mobile))
    requires !IsBlank(d.zipCode) && ZipPattern(d.zipCode)
    requires d.email == "" || EmailPattern(d.email)
    ensures FormValid(d)
  {
    forall f
      ensures FieldError(d, f).None?
    {
      match f
      case FirstName =>
      case LastName =>
      case Address =>
      case City =>
      case Mobile =>
      case ZipCode =>
      case Email =>
    }
  }

  /** A number written as a plus sign and up to sixteen digits, not starting with 0, passes whole. */
  lemma InternationalMobileValid(m: string)
    requires 2 <= |m| <= 17 && m[0] == '+' && '1' <= m[1] <= '9' && AllDigits(m[1..])
    ensures !IsBlank(m) && MobilePattern(RemoveSpaces(m))
  {
    NotBlank(m, 0);
    forall i | 0 <= i < |m| ensures !IsSpace(m[i]) {
      if i > 0 { assert m[1..][i - 1] == m[i]; }
    }
    RemoveSpacesOfSpaceless(m);
    assert AllDigits(m[1..][1..]) by {
      forall k | 0 <= k < |m[1..][1..]| ensures IsDigit(m[1..][1..][k]) {
        assert m[1..][1..][k] == m[1..][k + 1];
      }
    }
  }

  /** Filled-in names, address and city, a five-digit ZIP, an international mobile number and no e-mail pass. */
  lemma SampleFormValid(d: PersonalDetails)
    requires d.firstName != "" && !IsSpace(d.firstName[0]) && d.lastName != "" && !IsSpace(d.lastName[0])
    requires d.address != "" && !IsSpace(d.address[0]) && d.city != "" && !IsSpace(d.city[0])
    requires 2 <= |d.mobile| <= 17 && d.mobile[0] == '+' && '1' <= d.mobile[1] <= '9' && AllDigits(d.mobile[1..])
    requires |d.zipCode| == 5 && AllDigits(d.zipCode) && d.email == ""
    ensures FormValid(d)
  {
    NotBlank(d.firstName, 0);
    NotBlank(d.lastName, 0);
    NotBlank(d.address, 0);
    NotBlank(d.city, 0);
    assert !IsBlank(d.zipCode) && ZipPattern(d.zipCode) by {
      NotBlank(d.zipCode, 0);
    }
    InternationalMobileValid(d.mobile);
    FormValidWhen(d);
  }
}
