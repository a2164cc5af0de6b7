/**
 * The profile editor: a form of three text fields, a birth date chosen with a
 * date picker, a profile picture, the age computed from the birth date, and
 * the payload the save button sends.
 */
module CreateProfileScreen {
  import opened Js
  import opened Types

  /** A calendar date as the local-time getters read it; `month` runs from 1 to 12. */
  datatype Date = Date(year: int, month: int, day: int)

  /** `a` is not later than `b`. */
  predicate OnOrBefore(a: Date, b: Date) {
    a.year < b.year ||
    (a.year == b.year && (a.month < b.month || (a.month == b.month && a.day <= b.day)))
  }

  /** The `n`-th anniversary of `birth` has come by `today`. */
  predicate AnniversaryReached(birth: Date, n: int, today: Date) {
    OnOrBefore(Date(birth.year + n, birth.month, birth.day), today)
  }

  /**
   * `calculateAge`: the year difference, one less while this year's
   * birthday is still to come. "Today" is a parameter.
   */
  function CalculateAge(birth: Date, today: Date): (age: int)
    ensures AnniversaryReached(birth, age, today)
    ensures !AnniversaryReached(birth, age + 1, today)
  {
    var age := today.year - birth.year;
    var m := today.month - birth.month;
    if m < 0 || (m == 0 && today.day < birth.day) then age - 1 else age
  }

  /** The age is the number of anniversaries reached: no other count meets both conditions. */
  lemma AgeIsUnique(birth: Date, today: Date, n: int)
    requires AnniversaryReached(birth, n, today) && !AnniversaryReached(birth, n + 1, today)
    ensures n == CalculateAge(birth, today)
  {
  }

  /**
   * The year difference is decremented exactly when today's month is earlier
   * than the birth month, or the month is the same and today's day is earlier.
   */
  lemma AgeDecrement(birth: Date, today: Date)
    ensures var before := today.month < birth.month ||
                          (today.month == birth.month && today.day < birth.day);
      (before ==> CalculateAge(birth, today) == today.year - birth.year - 1) &&
      (!before ==> CalculateAge(birth, today) == today.year - birth.year)
  {
  }

  /** On the birthday itself the full year difference counts. */
  lemma AgeOnBirthday(birth: Date, today: Date)
    requires today.month == birth.month && today.day == birth.day
    ensures CalculateAge(birth, today) == today.year - birth.year
  {
  }

  // ---- The date-only text of `toISOString().split('T')[0]` ----

  /** A date a picker can produce and a four-digit ISO year can write. */
  predicate ValidDate(d: Date) {
    0 <= d.year <= 9999 && 1 <= d.month <= 12 && 1 <= d.day <= 31
  }

  function Pow10(w: nat): (r: nat)
    ensures r >= 1
  {
    if w == 0 then 1 else 10 * Pow10(w - 1)
  }

  predicate IsDigit(c: char) {
    '0' <= c <= '9'
  }

  predicate AllDigits(s: string) {
    forall k :: 0 <= k < |s| ==> IsDigit(s[k])
  }

  /** `n` in exactly `width` decimal digits, zero-padded on the left. */
  function Pad(n: nat, width: nat): (r: string)
    requires n < Pow10(width)
    ensures |r| == width && AllDigits(r)
  {
    if width == 0 then ""
    else Pad(n / 10, width - 1) + [('0' as int + n % 10) as char]
  }

  /** The value of a string of decimal digits. */
  function DigitsValue(s: string): (n: nat)
    requires AllDigits(s)
    ensures n < Pow10(|s|)
  {
    if s == [] then 0
    else DigitsValue(s[..|s| - 1]) * 10 + (s[|s| - 1] as int - '0' as int)
  }

  lemma {:induction false} DigitsValuePad(n: nat, width: nat)
    requires n < Pow10(width)
    ensures DigitsValue(Pad(n, width)) == n
  {
    if width > 0 {
      var s := Pad(n, width);
      assert s[..|s| - 1] == Pad(n / 10, width - 1);
      DigitsValuePad(n / 10, width - 1);
    }
  }

  /** `YYYY-MM-DD`. */
  function IsoDate(d: Date): (r: string)
    requires ValidDate(d)
    ensures |r| == 10 && r[4] == '-' && r[7] == '-'
  {
    Pad(d.year, 4) + "-" + Pad(d.month, 2) + "-" + Pad(d.day, 2)
  }

  /** Reading a `YYYY-MM-DD` text back; anything else, or an impossible month or day, is `None`. */
  function ParseIsoDate(s: string): (r: Option<Date>)
    ensures r.Some? ==> ValidDate(r.value)
  {
    if |s| == 10 && s[4] == '-' && s[7] == '-' &&
       AllDigits(s[..4]) && AllDigits(s[5..7]) && AllDigits(s[8..])
    then
      var d := Date(DigitsValue(s[..4]), DigitsValue(s[5..7]), DigitsValue(s[8..]));
      if ValidDate(d) then Some(d) else None
    else None
  }

  /** The date-only text reads back as the same date. */
  lemma IsoDateRoundTrip(d: Date)
    requires ValidDate(d)
    ensures ParseIsoDate(IsoDate(d)) == Some(d)
  {
    var s := IsoDate(d);
    assert s[..4] == Pad(d.year, 4);
    assert s[5..7] == Pad(d.month, 2);
    assert s[8..] == Pad(d.day, 2);
    DigitsValuePad(d.year, 4);
    DigitsValuePad(d.month, 2);
    DigitsValuePad(d.day, 2);
  }

  // ---- The form ----

  datatype FormData = FormData(name: string, bio: string, location: string)

  datatype Field = Name | Bio | Location

  function FieldOf(f: FormData, field: Field): string {
    match field
    case Name => f.name
    case Bio => f.bio
    case Location => f.location
  }

  /** `{ ...prev, [field]: value }`. */
  function UpdateField(f: FormData, field: Field, value: string): (r: FormData)
    ensures FieldOf(r, field) == value
    ensures forall other: Field :: other != field ==> FieldOf(r, other) == FieldOf(f, other)
  {
    match field
    case Name => f.(name := value)
    case Bio => f.(bio := value)
    case Location => f.(location := value)
  }

  /** What `handleSave` hands to the update request. */
  datatype SavePayload = SavePayload(
    name: string,
    bio: string,
    location: string,
    birthDate: string,
    age: int,
    picture: Option<string>)

  /** `buttonText`. */
  function ButtonText(profileData: Option<User>): (r: string)
    ensures r == "Update Profile" <==> profileData.Some? && profileData.value.profile.Some?
    ensures r == "Update Profile" || r == "Add Profile"
  {
    if profileData.Some? && profileData.value.profile.Some? then "Update Profile" else "Add Profile"
  }

  /** The editor's state as the screen component holds it. */
  class ProfileForm {
    var form: FormData
    var birthDate: Date
    var showDatePicker: bool
    /** The chosen picture's uri, if any. */
    var profileImage: Option<string>
    var additionalImages: seq<Picture>

    ghost predicate Valid()
      reads this
    {
      ValidDate(birthDate)
    }

    /** A blank form whose birth date starts at today. */
    constructor (today: Date)
      requires ValidDate(today)
      ensures Valid()
      ensures form == FormData("", "", "") && birthDate == today && !showDatePicker
      ensures profileImage == None && additionalImages == []
    {
      form := FormData("", "", "");
      birthDate := today;
      showDatePicker := false;
      profileImage := None;
      additionalImages := [];
    }

    /**
     * Filling the form from a fetched profile: missing or empty text fields
     * become `''`; the birth date, the picture and the picture list are
     * taken only when present.
     */
    method Prefill(profileData: Option<User>)
      requires Valid()
      modifies this
      ensures Valid() && showDatePicker == old(showDatePicker)
      ensures profileData.None? || profileData.value.profile.None? ==>
        form == old(form) && birthDate == old(birthDate) &&
        profileImage == old(profileImage) && additionalImages == old(additionalImages)
      ensures profileData.Some? && profileData.value.profile.Some? ==>
        var p := profileData.value.profile.value;
        form == FormData(OrElse(p.name, ""), OrElse(p.bio, ""), OrElse(p.location, "")) &&
        birthDate == (if Truthy(p.birthDate) && ParseIsoDate(p.birthDate.value).Some?
                      then ParseIsoDate(p.birthDate.value).value else old(birthDate)) &&
        profileImage == (if Truthy(p.profilePictureUrl) then p.profilePictureUrl else old(profileImage)) &&
        additionalImages == profileData.value.pictures
    {
      if profileData.Some? && profileData.value.profile.Some? {
        var p := profileData.value.profile.value;
        form := FormData(OrElse(p.name, ""), OrElse(p.bio, ""), OrElse(p.location, ""));
        if Truthy(p.birthDate) {
          var parsed := ParseIsoDate(p.birthDate.value);
          if parsed.Some? {
            birthDate := parsed.value;
          }
        }
        if Truthy(p.profilePictureUrl) {
          profileImage := p.profilePictureUrl;
        }
        additionalImages := profileData.value.pictures;
      }
    }

    /** `handleInputChange`. */
    method HandleInputChange(field: Field, value: string)
      modifies this`form
      ensures form == UpdateField(old(form), field, value)
    {
      match field
      case Name => form := form.(name := value);
      case Bio => form := form.(bio := value);
      case Location => form := form.(location := value);
    }

    /** `handleDateChange`: a dismissed picker keeps the previous date; the picker closes either way. */
    method HandleDateChange(selected: Option<Date>)
      requires Valid()
      requires selected.Some? ==> ValidDate(selected.value)
      modifies this`birthDate, this`showDatePicker
      ensures Valid() && !showDatePicker
      ensures birthDate == if selected.Some? then selected.value else old(birthDate)
    {
      var current := if selected.Some? then selected.value else birthDate;
      showDatePicker := false;
      birthDate := current;
    }

    /** `handleChooseProfileImage`, with the picker's answer as a parameter (`None` when cancelled). */
    method ChooseProfileImage(picked: Option<string>)
      modifies this`profileImage
      ensures profileImage == if picked.Some? then picked else old(profileImage)
    {
      if picked.Some? {
        profileImage := picked;
      }
    }

    /**
     * `handleSave`: the form fields, the date-only birth date, the age on
     * `today`, and the picture only when its uri is truthy.
     */
    method HandleSave(today: Date) returns (payload: SavePayload)
      requires Valid()
      ensures payload.name == form.name && payload.bio == form.bio && payload.location == form.location
      ensures ParseIsoDate(payload.birthDate) == Some(birthDate)
      ensures payload.age == CalculateAge(birthDate, today)
      ensures AnniversaryReached(birthDate, payload.age, today)
      ensures !AnniversaryReached(birthDate, payload.age + 1, today)
      ensures payload.picture.Some? <==> Truthy(profileImage)
      ensures payload.picture.Some? ==> payload.picture == profileImage
    {
      var age := CalculateAge(birthDate, today);
      payload := SavePayload(form.name, form.bio, form.location, IsoDate(birthDate), age, None);
      if profileImage.Some? && profileImage.value != "" {
        payload := payload.(picture := profileImage);
      }
      IsoDateRoundTrip(birthDate);
    }
  }
}
