/** The profile helpers: the upload-path helper `user_directory_path`, the image-size
    validator, the phone-number validator and the role and status choices
    of a user. */
module Profiles {
  import opened Optional
  import opened PyStr

  // ----- user_directory_path -----

  /** `filename.split('.')[-1]`. */
  function Extension(filename: string): string
  {
    AfterLast(filename, '.')
  }

  /** The directory the helper puts an owner's files in: `uploads/<model>/<username>/`,
      with `anonymous` when the image's object has no user. */
  function UploadDirectory(modelName: string, owner: Option<string>): string
  {
    UploadParent(modelName, owner) + "/"
  }

  /** The upload directory without its final `/`. */
  function UploadParent(modelName: string, owner: Option<string>): string
  {
    "uploads/" + modelName + "/" + (if owner.Some? then owner.value else "anonymous")
  }

  /** `user_directory_path`: the upload directory, then the generated
      `uuid1()` text (a parameter) and the original extension. */
  function UserDirectoryPath(modelName: string, owner: Option<string>, uuid: string, filename: string): string
  {
    UploadDirectory(modelName, owner) + uuid + "." + Extension(filename)
  }

  /** Every path the helper builds lies in its owner's directory. */
  lemma UserDirectoryPathInUploadDirectory(modelName: string, owner: Option<string>, uuid: string, filename: string)
    ensures UploadDirectory(modelName, owner) <= UserDirectoryPath(modelName, owner, uuid, filename)
  {
    var dir := UploadDirectory(modelName, owner);
    var ext := Extension(filename);
    assert UserDirectoryPath(modelName, owner, uuid, filename) == dir + uuid + "." + ext;
    Regroup(dir, "", uuid, ".", ext);
    assert dir + "" == dir;
  }

  /** A file name without a dot is its own extension. */
  lemma ExtensionWithoutDot(filename: string)
    requires '.' !in filename
    ensures Extension(filename) == filename
  {
  }

  /** Appending `.ext` makes `ext` the extension. */
  lemma ExtensionOfSuffix(head: string, ext: string)
    requires '.' !in ext
    ensures Extension(head + ['.'] + ext) == ext
  {
    AfterLastOfSuffix(head, '.', ext);
  }

  /** The stored path keeps the uploaded file's extension. */
  lemma UserDirectoryPathKeepsExtension(modelName: string, owner: Option<string>, uuid: string, filename: string)
    ensures Extension(UserDirectoryPath(modelName, owner, uuid, filename)) == Extension(filename)
  {
    var head := UploadDirectory(modelName, owner) + uuid;
    assert UserDirectoryPath(modelName, owner, uuid, filename) == head + ['.'] + Extension(filename);
    ExtensionOfSuffix(head, Extension(filename));
  }

  /** A character absent from the generated name and the file name is
      absent from `<uuid>.<ext>`. */
  lemma NotInGeneratedName(uuid: string, filename: string, c: char)
    requires c != '.' && c !in uuid && c !in filename
    ensures c !in uuid + "." + Extension(filename)
  {
    var ext := Extension(filename);
    var last := uuid + "." + ext;
    assert ext == filename[|filename| - |ext|..];
    forall k | 0 <= k < |last| ensures last[k] != c {
      if k < |uuid| { assert last[k] == uuid[k]; }
      else if k == |uuid| { assert last[k] == '.'; }
      else { assert last[k] == ext[k - |uuid| - 1] == filename[|filename| - |ext| + k - |uuid| - 1]; }
    }
  }

  lemma Regroup(a: string, b: string, c: string, d: string, e: string)
    ensures a + b + c + d + e == a + b + (c + d + e)
  {
  }

  /** The last segment of the stored path is the generated name: nothing
      of the original base name survives. */
  lemma UserDirectoryPathLastSegment(modelName: string, owner: Option<string>, uuid: string, filename: string)
    requires '/' !in uuid && '/' !in filename
    ensures AfterLast(UserDirectoryPath(modelName, owner, uuid, filename), '/') == uuid + "." + Extension(filename)
  {
    var head := UploadParent(modelName, owner);
    var last := uuid + "." + Extension(filename);
    Regroup(head, "/", uuid, ".", Extension(filename));
    NotInGeneratedName(uuid, filename, '/');
    AfterLastOfSuffix(head, '/', last);
  }

  // ----- validate_image_size -----

  const MaxImageSizeKb := 5120

  /** The size limit in bytes: 5 MiB. */
  const MaxImageSizeBytes := MaxImageSizeKb * 1024

  /** `validate_image_size`: `None` when the image passes, otherwise the
      text of the `ValidationError` it raises. */
  function ValidateImageSize(size: int): (r: Option<string>)
    ensures r.Some? ==> r.value == "Image size exceeds 5120 KB."
  {
    if size > MaxImageSizeBytes then Some("Image size exceeds 5120 KB.") else None
  }

  /** Exactly the images of at most 5,242,880 bytes pass; a smaller image
      passes whenever a larger one does. */
  lemma ImageSizeLimit(size: int, smaller: int)
    ensures ValidateImageSize(size).None? <==> size <= 5242880
    ensures ValidateImageSize(5242880).None? && ValidateImageSize(5242881).Some?
    ensures smaller <= size && ValidateImageSize(size).None? ==> ValidateImageSize(smaller).None?
  {
  }

  // ----- phone_number validator -----

  predicate IsDigit(c: char)
  {
    '0' <= c <= '9'
  }

  predicate AllDigits(s: string)
  {
    forall i :: 0 <= i < |s| ==> IsDigit(s[i])
  }

  /** The pattern `^\+?1?\d{9,15}$` matches `s` with `plus` characters
      taken by `\+?` and `one` by `1?`. */
  predicate MatchesWith(s: string, plus: int, one: int)
  {
    && 0 <= plus <= 1 && 0 <= one <= 1 && plus + one <= |s|
    && (plus == 1 ==> s[0] == '+')
    && (one == 1 ==> s[plus] == '1')
    && 9 <= |s| - plus - one <= 15
    && AllDigits(s[plus + one..])
  }

  /** The regular expression accepts `s`: some choice for the two optional
      parts leaves 9 to 15 digits. */
  ghost predicate RegexAccepts(s: string)
  {
    exists plus, one :: MatchesWith(s, plus, one)
  }

  /** The closed form: an optional `+`, then only digits, 9 to 15 of them,
      or 16 of them when the first is `1`. */
  predicate IsPhoneNumber(s: string)
  {
    var body := if |s| > 0 && s[0] == '+' then s[1..] else s;
    AllDigits(body) && (9 <= |body| <= 15 || (|body| == 16 && body[0] == '1'))
  }

  /** Every string the regular expression accepts has the closed form. */
  lemma RegexImpliesClosedForm(s: string)
    requires RegexAccepts(s)
    ensures IsPhoneNumber(s)
  {
    var lead := if |s| > 0 && s[0] == '+' then 1 else 0;
    var body := s[lead..];
    var plus, one :| MatchesWith(s, plus, one);
    assert plus == lead;
    if one == 1 {
      forall i | 0 <= i < |body| ensures IsDigit(body[i]) {
        if i > 0 { assert body[i] == s[plus + one..][i - 1]; }
      }
    } else {
      assert body == s[plus + one..];
    }
  }

  /** Every string of the closed form is accepted by the regular
      expression. */
  lemma ClosedFormImpliesRegex(s: string)
    requires IsPhoneNumber(s)
    ensures RegexAccepts(s)
  {
    var lead := if |s| > 0 && s[0] == '+' then 1 else 0;
    var body := s[lead..];
    if 9 <= |body| <= 15 {
      assert body == s[lead + 0..];
      assert MatchesWith(s, lead, 0);
    } else {
      assert s[lead + 1..] == body[1..];
      assert MatchesWith(s, lead, 1);
    }
  }

  /** The closed form is the language of the regular expression. */
  lemma PhoneClosedForm(s: string)
    ensures RegexAccepts(s) <==> IsPhoneNumber(s)
  {
    if RegexAccepts(s) { RegexImpliesClosedForm(s); }
    if IsPhoneNumber(s) { ClosedFormImpliesRegex(s); }
  }

  /** Plain text is rejected; an international number with or without `+`
      is accepted; 16 digits pass only behind a leading `1`. */
  lemma PhoneExamples()
    ensures !IsPhoneNumber("invalid")
    ensures IsPhoneNumber("+1234567890")
    ensures IsPhoneNumber("254712345678")
    ensures IsPhoneNumber("+1254712345678901")
    ensures !IsPhoneNumber("2254712345678901")
    ensures !IsPhoneNumber("+12345678")
  {
    assert "+1234567890"[1..] == "1234567890";
    assert "+1254712345678901"[1..] == "1254712345678901";
    assert "+12345678"[1..] == "12345678";
  }

  /** Every accepted number fits the column's `max_length` of 20. */
  lemma PhoneFitsColumn(s: string)
    requires RegexAccepts(s)
    ensures |s| <= 17 <= 20
  {
    PhoneClosedForm(s);
  }

  // ----- UserRole / UserStatus -----

  datatype UserRole = Customer | SystemAdmin | SupportStaff | FinanceStaff

  /** The stored value of a role. */
  function RoleValue(r: UserRole): string
  {
    match r
    case Customer => "customer"
    case SystemAdmin => "system_admin"
    case SupportStaff => "support"
    case FinanceStaff => "finance"
  }

  /** The human-readable label of a role. */
  function RoleLabel(role: UserRole): (r: string)
    ensures r == RoleValue(role) <==> role == Customer
    ensures r != ""
  {
    match role
    case Customer => "customer"
    case SystemAdmin => "System Administrator"
    case SupportStaff => "Support Staff"
    case FinanceStaff => "Finance Staff"
  }

  /** The role a stored value names, if any. */
  function ParseRole(v: string): (r: Option<UserRole>)
    ensures r.Some? ==> RoleValue(r.value) == v
  {
    if v == "customer" then Some(Customer)
    else if v == "system_admin" then Some(SystemAdmin)
    else if v == "support" then Some(SupportStaff)
    else if v == "finance" then Some(FinanceStaff)
    else None
  }

  const RoleValues: set<string> := {"customer", "system_admin", "support", "finance"}

  /** The stored values are exactly the four choices, each names one role,
      and each fits the column's `max_length` of 20. */
  lemma RoleChoices(r: UserRole, v: string)
    ensures ParseRole(RoleValue(r)) == Some(r)
    ensures ParseRole(v).Some? <==> v in RoleValues
    ensures RoleValue(r) in RoleValues && |RoleValue(r)| <= 20
  {
  }

  datatype UserStatus = Inactive | Active | PendingVerification | Suspended | Archived

  function StatusValue(s: UserStatus): string
  {
    match s
    case Inactive => "inactive"
    case Active => "active"
    case PendingVerification => "pending"
    case Suspended => "suspended"
    case Archived => "archived"
  }

  function StatusLabel(s: UserStatus): (r: string)
    ensures r != StatusValue(s)
    ensures r != [] && 'A' <= r[0] <= 'Z'
  {
    match s
    case Inactive => "Inactive"
    case Active => "Active"
    case PendingVerification => "Pending Verification"
    case Suspended => "Suspended"
    case Archived => "Archived"
  }

  function ParseStatus(v: string): (r: Option<UserStatus>)
    ensures r.Some? ==> StatusValue(r.value) == v
  {
    if v == "inactive" then Some(Inactive)
    else if v == "active" then Some(Active)
    else if v == "pending" then Some(PendingVerification)
    else if v == "suspended" then Some(Suspended)
    else if v == "archived" then Some(Archived)
    else None
  }

  const StatusValues: set<string> := {"inactive", "active", "pending", "suspended", "archived"}

  lemma StatusChoices(s: UserStatus, v: string)
    ensures ParseStatus(StatusValue(s)) == Some(s)
    ensures ParseStatus(v).Some? <==> v in StatusValues
    ensures StatusValue(s) in StatusValues && |StatusValue(s)| <= 20
  {
  }

  /** A new user is a customer whose account is inactive. */
  function DefaultRole(): (r: UserRole)
    ensures RoleValue(r) == "customer"
  {
    Customer
  }

  function DefaultStatus(): (s: UserStatus)
    ensures StatusValue(s) == "inactive"
  {
    Inactive
  }

  // ----- UserImage.__str__ -----

  /** `UserImage.__str__`: the object's text and the caption, `No Caption`
      when the caption is blank. */
  function ImageTitle(contentObject: string, caption: string): (r: string)
    ensures |r| >= 10 + |caption| && r[..10] == "Image for "
    ensures caption != "" ==> r[|r| - |caption|..] == caption
    ensures caption == "" ==> r[|r| - 10..] == "No Caption"
  {
    "Image for " + contentObject + " - " + (if caption == "" then "No Caption" else caption)
  }
}
