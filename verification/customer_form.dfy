/** The new-customer form: per-field input formatters, length caps, and the
    validation run before submitting. */
module CustomerForm {
  import opened Wrappers
  import opened Seqs

  datatype Field = Name | ContactPerson | Phone | Email | City | District | Address | TaxOffice | TaxNumber | TcIdentityNumber

  datatype CustomerKind = Individual | Corporate

  datatype Form = Form(
    name: string, contactPerson: string, phone: string, email: string, city: string,
    district: string, address: string, taxOffice: string, taxNumber: string, tcIdentityNumber: string)

  /** The form as it opens: every field empty except the city. */
  const InitialForm: Form := Form("", "", "", "", "İstanbul", "", "", "", "", "")

  /** The characters of the regular-expression class `\s`. */
  predicate IsWhitespace(c: char)
  {
    || '\t' <= c <= '\r' || c == ' ' || c == '\U{00A0}' || c == '\U{1680}'
    || '\U{2000}' <= c <= '\U{200A}' || c == '\U{2028}' || c == '\U{2029}'
    || c == '\U{202F}' || c == '\U{205F}' || c == '\U{3000}' || c == '\U{FEFF}'
  }

  predicate NotWhitespace(c: char)
  {
    !IsWhitespace(c)
  }

  /** The Turkish letters the name fields accept besides ASCII letters. */
  predicate IsTurkishLetter(c: char)
  {
    c in "ğüşöçıİĞÜŞÖÇ"
  }

  predicate IsLetterChar(c: char)
  {
    'a' <= c <= 'z' || 'A' <= c <= 'Z' || IsTurkishLetter(c) || IsWhitespace(c)
  }

  predicate IsDigit(c: char)
  {
    '0' <= c <= '9'
  }

  predicate IsEmailChar(c: char)
  {
    'a' <= c <= 'z' || 'A' <= c <= 'Z' || IsDigit(c) || c == '@' || c == '.' || c == '_' || c == '-'
  }

  /** Keep letters (ASCII and Turkish) and whitespace, in order. */
  function OnlyLetters(s: string): (r: string)
    ensures forall c :: c in r <==> c in s && IsLetterChar(c)
    ensures forall c :: multiset(r)[c] == if IsLetterChar(c) then multiset(s)[c] else 0
    ensures Subsequence(r, s)
  {
    FilterMembers(s, IsLetterChar);
    FilterCounts(s, IsLetterChar);
    FilterSubsequence(s, IsLetterChar);
    Filter(s, IsLetterChar)
  }

  /** Keep the digits 0-9, in order. */
  function OnlyNumbers(s: string): (r: string)
    ensures forall c :: c in r <==> c in s && IsDigit(c)
    ensures forall c :: multiset(r)[c] == if IsDigit(c) then multiset(s)[c] else 0
    ensures Subsequence(r, s)
  {
    FilterMembers(s, IsDigit);
    FilterCounts(s, IsDigit);
    FilterSubsequence(s, IsDigit);
    Filter(s, IsDigit)
  }

  /** Keep the characters an e-mail address may use, in order. */
  function EmailFormat(s: string): (r: string)
    ensures forall c :: c in r <==> c in s && IsEmailChar(c)
    ensures forall c :: multiset(r)[c] == if IsEmailChar(c) then multiset(s)[c] else 0
    ensures Subsequence(r, s)
  {
    FilterMembers(s, IsEmailChar);
    FilterCounts(s, IsEmailChar);
    FilterSubsequence(s, IsEmailChar);
    Filter(s, IsEmailChar)
  }

  /** The string with its whitespace removed. */
  function StripSpaces(s: string): (r: string)
    ensures forall c :: c in r <==> c in s && !IsWhitespace(c)
    ensures forall c :: multiset(r)[c] == if IsWhitespace(c) then 0 else multiset(s)[c]
    ensures Subsequence(r, s)
  {
    FilterMembers(s, NotWhitespace);
    FilterCounts(s, NotWhitespace);
    FilterSubsequence(s, NotWhitespace);
    Filter(s, NotWhitespace)
  }

  /** The first `n` characters, or all of them when there are fewer
      (`slice(0, n)`). */
  function Prefix(s: string, n: nat): (r: string)
    ensures |r| == if |s| <= n then |s| else n
    ensures r == s[..|r|]
  {
    if |s| <= n then s else s[..n]
  }

  /** Group the digits of a phone number as `dddd ddd dddd`; digits beyond
      the eleventh are dropped. */
  function PhoneFormat(value: string): (r: string)
    ensures |r| <= 13
    ensures forall c :: c in r ==> IsDigit(c) || c == ' '
    ensures var n := |OnlyNumbers(value)|;
            |r| == (if n <= 11 then n else 11) + (if n > 7 then 2 else if n > 4 then 1 else 0)
    ensures var n := |OnlyNumbers(value)|;
            forall i :: 0 <= i < |r| ==> (r[i] == ' ' <==> (i == 4 && n > 4) || (i == 8 && n > 7))
  {
    var nums := OnlyNumbers(value);
    assert forall i :: 0 <= i < |nums| ==> nums[i] in nums;
    Group(nums)
  }

  /** The `dddd ddd dddd` grouping of a string of digits. */
  function Group(nums: string): (r: string)
    ensures var n := |nums|;
            |r| == (if n <= 11 then n else 11) + (if n > 7 then 2 else if n > 4 then 1 else 0)
    ensures forall i :: 0 <= i < |r| && r[i] != ' ' ==> r[i] in nums
    ensures forall i :: 0 <= i < |r| && ' ' !in nums ==>
              (r[i] == ' ' <==> (i == 4 && |nums| > 4) || (i == 8 && |nums| > 7))
  {
    if |nums| <= 4 then nums
    else if |nums| <= 7 then nums[..4] + " " + nums[4..]
    else nums[..4] + " " + nums[4..7] + " " + Prefix(nums[7..], 4)
  }

  /** Digits beyond the eleventh never reach the grouping. */
  lemma GroupPrefix(nums: string)
    ensures Group(Prefix(nums, 11)) == Group(nums)
  {
    var d := Prefix(nums, 11);
    if |nums| > 7 {
      assert d[..4] == nums[..4] && d[4..7] == nums[4..7];
      assert Prefix(d[7..], 4) == Prefix(nums[7..], 4);
    }
  }

  /** A filter that keeps digits and drops the space sees exactly the first
      eleven digits of the input in a formatted phone number. */
  lemma PhoneDigitsUnder(value: string, keep: char -> bool)
    requires forall c :: IsDigit(c) ==> keep(c)
    requires !keep(' ')
    ensures Filter(PhoneFormat(value), keep) == Prefix(OnlyNumbers(value), 11)
  {
    var nums := OnlyNumbers(value);
    assert forall i :: 0 <= i < |nums| ==> keep(nums[i]) by {
      assert forall i :: 0 <= i < |nums| ==> nums[i] in nums;
    }
    if |nums| <= 4 {
      FilterKeepsAll(nums, keep);
    } else if |nums| <= 7 {
      TwoGroups(nums[..4], nums[4..], keep);
      assert nums[..4] + nums[4..] == nums;
    } else {
      ThreeGroups(nums[..4], nums[4..7], Prefix(nums[7..], 4), keep);
      GroupsJoin(nums);
    }
  }

  /** The three groups of a phone number, put back together, are its first
      eleven digits. */
  lemma GroupsJoin(nums: string)
    requires |nums| > 7
    ensures nums[..4] + nums[4..7] + Prefix(nums[7..], 4) == Prefix(nums, 11)
  {
    if |nums| <= 11 {
      assert Prefix(nums[7..], 4) == nums[7..];
      assert nums[..4] + nums[4..7] + nums[7..] == nums;
    } else {
      assert Prefix(nums[7..], 4) == nums[7..11];
      assert nums[..4] + nums[4..7] + nums[7..11] == nums[..11];
    }
  }

  lemma FilterSpace(keep: char -> bool)
    requires !keep(' ')
    ensures Filter(" ", keep) == []
  {
    assert " "[1..] == [];
  }

  lemma SpaceAfter(a: string, keep: char -> bool)
    requires !keep(' ')
    ensures Filter(a + " ", keep) == Filter(a, keep)
  {
    FilterSpace(keep);
    FilterAppend(a, " ", keep);
    assert Filter(a, keep) + [] == Filter(a, keep);
  }

  lemma TwoGroups(a: string, b: string, keep: char -> bool)
    requires !keep(' ')
    requires forall i :: 0 <= i < |a| ==> keep(a[i])
    requires forall i :: 0 <= i < |b| ==> keep(b[i])
    ensures Filter(a + " " + b, keep) == a + b
  {
    FilterKeepsAll(a, keep);
    FilterKeepsAll(b, keep);
    SpaceAfter(a, keep);
    FilterAppend(a + " ", b, keep);
  }

  lemma ThreeGroups(a: string, b: string, c: string, keep: char -> bool)
    requires !keep(' ')
    requires forall i :: 0 <= i < |a| ==> keep(a[i])
    requires forall i :: 0 <= i < |b| ==> keep(b[i])
    requires forall i :: 0 <= i < |c| ==> keep(c[i])
    ensures Filter(a + " " + b + " " + c, keep) == a + b + c
  {
    FilterKeepsAll(c, keep);
    TwoGroups(a, b, keep);
    SpaceAfter(a + " " + b, keep);
    FilterAppend(a + " " + b + " ", c, keep);
  }

  /** With its spaces removed, a formatted phone number is the first eleven
      digits of what was typed. */
  lemma PhoneDigits(value: string)
    ensures StripSpaces(PhoneFormat(value)) == Prefix(OnlyNumbers(value), 11)
    ensures OnlyNumbers(PhoneFormat(value)) == Prefix(OnlyNumbers(value), 11)
  {
    PhoneDigitsUnder(value, NotWhitespace);
    PhoneDigitsUnder(value, IsDigit);
  }

  /** Formatting a formatted phone number changes nothing. */
  lemma PhoneFormatIdempotent(value: string)
    ensures PhoneFormat(PhoneFormat(value)) == PhoneFormat(value)
  {
    PhoneDigits(value);
    GroupPrefix(OnlyNumbers(value));
  }

  /** The value stored for `field` after typing `value` into it. */
  function Format(field: Field, value: string): string
  {
    match field
    case Name | ContactPerson | TaxOffice | District => Prefix(OnlyLetters(value), 100)
    case Phone => Prefix(PhoneFormat(value), 14)
    case Email => Prefix(EmailFormat(value), 100)
    case TcIdentityNumber | TaxNumber => Prefix(OnlyNumbers(value), 11)
    case Address => Prefix(value, 500)
    case City => value
  }

  function Get(form: Form, field: Field): string
  {
    match field
    case Name => form.name
    case ContactPerson => form.contactPerson
    case Phone => form.phone
    case Email => form.email
    case City => form.city
    case District => form.district
    case Address => form.address
    case TaxOffice => form.taxOffice
    case TaxNumber => form.taxNumber
    case TcIdentityNumber => form.tcIdentityNumber
  }

  function Set(form: Form, field: Field, v: string): (r: Form)
    ensures Get(r, field) == v
    ensures forall g :: g != field ==> Get(r, g) == Get(form, g)
  {
    match field
    case Name => form.(name := v)
    case ContactPerson => form.(contactPerson := v)
    case Phone => form.(phone := v)
    case Email => form.(email := v)
    case City => form.(city := v)
    case District => form.(district := v)
    case Address => form.(address := v)
    case TaxOffice => form.(taxOffice := v)
    case TaxNumber => form.(taxNumber := v)
    case TcIdentityNumber => form.(tcIdentityNumber := v)
  }

  datatype Edited = Edited(form: Form, errors: map<Field, string>)

  /** A keystroke in `field`: store the formatted value and blank out the
      field's error message if one is shown; nothing else changes. */
  function HandleChange(form: Form, errors: map<Field, string>, field: Field, value: string): (r: Edited)
    ensures Get(r.form, field) == Format(field, value)
    ensures forall g :: g != field ==> Get(r.form, g) == Get(form, g)
    ensures r.errors.Keys == errors.Keys
    ensures forall g :: g in errors ==> r.errors[g] == if g == field then "" else errors[g]
  {
    var errors' := if field in errors && errors[field] != "" then errors[field := ""] else errors;
    Edited(Set(form, field, Format(field, value)), errors')
  }

  /** The most characters a field can hold after an edit (the city is a
      choice list, not capped). */
  function Cap(field: Field): nat
    requires field != City
  {
    match field
    case Name | ContactPerson | TaxOffice | District => 100
    case Phone => 14
    case Email => 100
    case TcIdentityNumber | TaxNumber => 11
    case Address => 500
  }

  /** Every capped field stays within its cap, and the phone cap never cuts
      a formatted number. */
  lemma FormatCaps(field: Field, value: string)
    ensures field != City ==> |Format(field, value)| <= Cap(field)
    ensures Format(Phone, value) == PhoneFormat(value)
  {
  }

  /** Re-entering a stored value stores it unchanged: each formatter is a
      projection. */
  lemma FormatIdempotent(field: Field, value: string)
    ensures Format(field, Format(field, value)) == Format(field, value)
  {
    match field
    case Name | ContactPerson | TaxOffice | District =>
      PrefixKept(value, IsLetterChar, 100);
    case Phone =>
      PhoneFormatIdempotent(value);
    case Email =>
      PrefixKept(value, IsEmailChar, 100);
    case TcIdentityNumber | TaxNumber =>
      PrefixKept(value, IsDigit, 11);
    case Address =>
    case City =>
  }

  /** A prefix of a filtered string passes the same filter unchanged. */
  lemma PrefixKept(s: string, keep: char -> bool, n: nat)
    ensures Filter(Prefix(Filter(s, keep), n), keep) == Prefix(Filter(s, keep), n)
  {
    var f := Filter(s, keep);
    FilterMembers(s, keep);
    var v := Prefix(f, n);
    assert forall i :: 0 <= i < |v| ==> v[i] in f;
    FilterKeepsAll(v, keep);
  }

  /** Digits-only and letters-only are idempotent. */
  lemma FiltersIdempotent(s: string)
    ensures OnlyNumbers(OnlyNumbers(s)) == OnlyNumbers(s)
    ensures OnlyLetters(OnlyLetters(s)) == OnlyLetters(s)
    ensures EmailFormat(EmailFormat(s)) == EmailFormat(s)
  {
    FilterIdempotent(s, IsDigit);
    FilterIdempotent(s, IsLetterChar);
    FilterIdempotent(s, IsEmailChar);
  }

  const NameTooShort: string := "İsim en az 2 karakter olmalıdır."
  const NameTooLong: string := "İsim en fazla 100 karakter olabilir."
  const PhoneTooShort: string := "Telefon numarası en az 10 hane olmalıdır."
  const EmailInvalid: string := "Geçerli bir e-posta adresi giriniz."
  const TcWrongLength: string := "TC Kimlik No 11 hane olmalıdır."
  const TaxNumberWrongLength: string := "Vergi No 10-11 hane olmalıdır."

  datatype Validation = Validation(ok: bool, errors: map<Field, string>)

  /** The checks run on submit. `emailOk` is the e-mail pattern test. */
  function Validate(form: Form, kind: CustomerKind, emailOk: string -> bool): (r: Validation)
    ensures r.ok <==> r.errors == map[]
    ensures r.errors.Keys <= {Name, Phone, Email, TcIdentityNumber, TaxNumber}
    ensures Name in r.errors <==> |form.name| < 2 || |form.name| > 100
    ensures Name in r.errors ==> r.errors[Name] == if |form.name| > 100 then NameTooLong else NameTooShort
    ensures Phone in r.errors <==> form.phone != "" && |StripSpaces(form.phone)| < 10
    ensures Email in r.errors <==> form.email != "" && !emailOk(form.email)
    ensures TcIdentityNumber in r.errors <==> kind == Individual && form.tcIdentityNumber != "" && |form.tcIdentityNumber| != 11
    ensures TaxNumber in r.errors <==> kind == Corporate && form.taxNumber != "" && (|form.taxNumber| < 10 || |form.taxNumber| > 11)
  {
    var errors := map f | f in Checked && Problem(form, kind, emailOk, f).Some? :: Problem(form, kind, emailOk, f).value;
    Validation(errors == map[], errors)
  }

  /** The fields the submit checks look at. */
  const Checked: set<Field> := {Name, Phone, Email, TcIdentityNumber, TaxNumber}

  /** The message one field's check records, if it fails. The name's length
      checks run in order, so a name over 100 characters ends with the
      too-long message. */
  function Problem(form: Form, kind: CustomerKind, emailOk: string -> bool, field: Field): Option<string>
  {
    match field
    case Name =>
      if |form.name| > 100 then Some(NameTooLong)
      else if form.name == "" || |form.name| < 2 then Some(NameTooShort)
      else None
    case Phone =>
      if form.phone != "" && |StripSpaces(form.phone)| < 10 then Some(PhoneTooShort) else None
    case Email =>
      if form.email != "" && !emailOk(form.email) then Some(EmailInvalid) else None
    case TcIdentityNumber =>
      if kind == Individual && form.tcIdentityNumber != "" && |form.tcIdentityNumber| != 11
      then Some(TcWrongLength) else None
    case TaxNumber =>
      if kind == Corporate && form.taxNumber != "" && (|form.taxNumber| < 10 || |form.taxNumber| > 11)
      then Some(TaxNumberWrongLength) else None
    case _ => None
  }

  /** After typing `value` into the phone field, validation rejects the
      phone exactly when some but fewer than ten digits were typed. */
  lemma PhoneValidity(form: Form, errors: map<Field, string>, value: string, kind: CustomerKind, emailOk: string -> bool)
    ensures var f := HandleChange(form, errors, Phone, value).form;
            Phone in Validate(f, kind, emailOk).errors <==> 0 < |OnlyNumbers(value)| < 10
  {
    PhoneDigits(value);
    var p := PhoneFormat(value);
    if |OnlyNumbers(value)| > 0 {
      assert |StripSpaces(p)| > 0;
    } else {
      assert p == "";
    }
  }

  /** After typing into the TC number field, an individual's form is
      rejected exactly when some but fewer than eleven digits were typed;
      a corporate form never checks it. */
  lemma TcValidity(form: Form, errors: map<Field, string>, value: string, kind: CustomerKind, emailOk: string -> bool)
    ensures var f := HandleChange(form, errors, TcIdentityNumber, value).form;
            TcIdentityNumber in Validate(f, kind, emailOk).errors <==> kind == Individual && 0 < |OnlyNumbers(value)| < 11
  {
  }

  /** A freshly opened form is rejected for its empty name only. */
  lemma InitialFormRejected(kind: CustomerKind, emailOk: string -> bool)
    ensures Validate(InitialForm, kind, emailOk) == Validation(false, map[Name := NameTooShort])
  {
  }
}
