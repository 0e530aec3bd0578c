/**
 * The profile page (src/pages/Profile.tsx): the password change handler,
 * the profile edit toggles and field handlers, the avatar initials and the
 * role label.
 */
module Profile {
  import opened Common
  import opened Text
  import opened Auth

  datatype PasswordData = PasswordData(currentPassword: string, newPassword: string, confirmPassword: string)

  const EmptyPasswords := PasswordData("", "", "")

  /** The result of pressing "Update Password". */
  datatype PasswordChange =
    | Mismatch    // "New passwords don't match."
    | TooShort    // "Password must be at least 6 characters long."
    | Changed

  /**
   * The checks of `handlePasswordChange`, in their order: the two new
   * passwords must agree, then be at least 6 characters long. The current
   * password is never checked.
   */
  function CheckPasswordChange(p: PasswordData): (r: PasswordChange)
    ensures r == Mismatch <==> p.newPassword != p.confirmPassword
    ensures r == TooShort <==> p.newPassword == p.confirmPassword && |p.newPassword| < 6
    ensures r == Changed <==> p.newPassword == p.confirmPassword && |p.newPassword| >= 6
  {
    if p.newPassword != p.confirmPassword then Mismatch
    else if |p.newPassword| < 6 then TooShort
    else Changed
  }

  datatype ProfileData = ProfileData(
    name: string,
    email: string,
    department: string,
    phone: string,
    address: string,
    emergencyContact: string,
    dateOfJoining: string)

  /** The initial form: the signed-in user's name, email and department (or ''), and fixed sample values. */
  function InitialProfile(user: Option<User>): (d: ProfileData)
    ensures d.department == if user.Some? then user.value.department else ""
  {
    match user
    case None => ProfileData("", "", "", "+1 (555) 123-4567", "123 Main St, City, State 12345",
                             "Jane Doe - +1 (555) 987-6543", "2023-01-15")
    case Some(u) => ProfileData(u.name, u.email, u.department, "+1 (555) 123-4567", "123 Main St, City, State 12345",
                                "Jane Doe - +1 (555) 987-6543", "2023-01-15")
  }

  /** The inputs that have a change handler. Department is not among them: its input is always disabled. */
  datatype ProfileField = Name | Email | Phone | Address | EmergencyContact

  /** `setProfileData({...profileData, <field>: value})` */
  function UpdateField(d: ProfileData, f: ProfileField, value: string): (r: ProfileData)
    ensures r.department == d.department && r.dateOfJoining == d.dateOfJoining
    ensures f == Name ==> r == d.(name := value)
    ensures f == Email ==> r == d.(email := value)
    ensures f == Phone ==> r == d.(phone := value)
    ensures f == Address ==> r == d.(address := value)
    ensures f == EmergencyContact ==> r == d.(emergencyContact := value)
  {
    match f
    case Name => d.(name := value)
    case Email => d.(email := value)
    case Phone => d.(phone := value)
    case Address => d.(address := value)
    case EmergencyContact => d.(emergencyContact := value)
  }

  datatype PasswordField = Current | New | Confirm

  /** The first character of each piece; an empty piece contributes nothing (`undefined` joins as ''). */
  function FirstChars(words: seq<string>): string
    decreases |words|
  {
    if words == [] then ""
    else (if |words[0]| > 0 then [words[0][0]] else []) + FirstChars(words[1..])
  }

  /** `name.split(' ').map(n => n[0]).join('')` */
  function Initials(name: string): (r: string)
    ensures r == WordStarts(name, true)
    ensures |r| <= |name| && forall i :: 0 <= i < |r| ==> r[i] != ' ' && r[i] in name
  {
    InitialsAreWordStarts(name);
    FirstChars(Split(name, ' '))
  }

  /**
   * A direct reading of "the first letter of every word": scanning left to
   * right, keep each non-space character that follows a space or starts the string.
   */
  function WordStarts(s: string, afterSpace: bool): (r: string)
    ensures |r| <= |s|
    ensures forall i :: 0 <= i < |r| ==> r[i] != ' ' && r[i] in s
    decreases |s|
  {
    if s == [] then ""
    else if s[0] == ' ' then WordStarts(s[1..], true)
    else (if afterSpace then [s[0]] else []) + WordStarts(s[1..], false)
  }

  /** The split-based initials are exactly the word-start characters: spaces, doubled or not, contribute nothing. */
  lemma {:induction false} InitialsAreWordStarts(name: string)
    ensures FirstChars(Split(name, ' ')) == WordStarts(name, true)
    ensures |Split(name, ' ')| >= 1 && FirstChars(Split(name, ' ')[1..]) == WordStarts(name, false)
    decreases |name|
  {
    if name != [] {
      var t := name[1..];
      var rest := Split(t, ' ');
      InitialsAreWordStarts(t);
      if name[0] == ' ' {
        assert Split(name, ' ') == [""] + rest;
        assert ([""] + rest)[1..] == rest;
      } else {
        var ws := [[name[0]] + rest[0]] + rest[1..];
        assert Split(name, ' ') == ws;
        assert ws[1..] == rest[1..];
        assert FirstChars(ws) == [name[0]] + FirstChars(rest[1..]);
      }
    }
  }

  /** `user?.role === 'admin' ? 'Admin/HR' : 'Employee'` */
  function RoleLabel(user: Option<User>): (r: string)
    ensures r == "Admin/HR" <==> IsAdmin(user)
    ensures r == "Employee" <==> !IsAdmin(user)
  {
    if IsAdmin(user) then "Admin/HR" else "Employee"
  }

  /** The department in Quick Stats: `user?.department || 'Engineering'`. */
  function DepartmentLabel(user: Option<User>): (r: string)
    ensures user.Some? && user.value.department != "" ==> r == user.value.department
    ensures user.None? || user.value.department == "" ==> r == "Engineering"
  {
    if user.Some? && user.value.department != "" then user.value.department else "Engineering"
  }

  /** The state of the page; `user` comes from the session and is not changed here. */
  class ProfilePage {
    const user: Option<User>
    var isEditing: bool
    var isChangingPassword: bool
    var profileData: ProfileData
    var passwordData: PasswordData

    constructor (user: Option<User>)
      ensures this.user == user && !isEditing && !isChangingPassword
      ensures profileData == InitialProfile(user) && passwordData == EmptyPasswords
    {
      this.user := user;
      isEditing, isChangingPassword := false, false;
      profileData, passwordData := InitialProfile(user), EmptyPasswords;
    }

    /** The Edit / Cancel button: `setIsEditing(!isEditing)`. */
    method ToggleEditing()
      modifies this
      ensures isEditing == !old(isEditing)
      ensures profileData == old(profileData) && passwordData == old(passwordData)
      ensures isChangingPassword == old(isChangingPassword)
    {
      isEditing := !isEditing;
    }

    /** `handleProfileUpdate`: the Save Changes button exists only while editing; it ends editing and the data stays as edited. */
    method ProfileUpdate()
      requires isEditing
      modifies this
      ensures !isEditing
      ensures profileData == old(profileData) && passwordData == old(passwordData)
      ensures isChangingPassword == old(isChangingPassword)
    {
      isEditing := false;
    }

    /** An input's `onChange`; the inputs are disabled unless editing, and the department keeps its value. */
    method EditField(f: ProfileField, value: string)
      requires isEditing
      modifies this
      ensures profileData == UpdateField(old(profileData), f, value)
      ensures profileData.department == old(profileData.department)
      ensures isEditing == old(isEditing) && passwordData == old(passwordData)
      ensures isChangingPassword == old(isChangingPassword)
    {
      profileData := UpdateField(profileData, f, value);
    }

    /** The Change Password / Cancel button: `setIsChangingPassword(!isChangingPassword)`. */
    method TogglePasswordPanel()
      modifies this
      ensures isChangingPassword == !old(isChangingPassword)
      ensures profileData == old(profileData) && passwordData == old(passwordData) && isEditing == old(isEditing)
    {
      isChangingPassword := !isChangingPassword;
    }

    /** A password input's `onChange`; the inputs exist only while the panel is open. */
    method EditPassword(f: PasswordField, value: string)
      requires isChangingPassword
      modifies this
      ensures passwordData == match f
        case Current => old(passwordData).(currentPassword := value)
        case New => old(passwordData).(newPassword := value)
        case Confirm => old(passwordData).(confirmPassword := value)
      ensures profileData == old(profileData) && isEditing == old(isEditing)
      ensures isChangingPassword == old(isChangingPassword)
    {
      match f
      case Current => passwordData := passwordData.(currentPassword := value);
      case New => passwordData := passwordData.(newPassword := value);
      case Confirm => passwordData := passwordData.(confirmPassword := value);
    }

    /**
     * `handlePasswordChange`: a rejected change leaves the fields and the
     * panel as they were; an accepted one clears the three fields and closes the panel.
     * The "Update Password" button exists only while the panel is open.
     */
    method ChangePassword() returns (outcome: PasswordChange)
      requires isChangingPassword
      modifies this
      ensures outcome == CheckPasswordChange(old(passwordData))
      ensures outcome == Changed ==> passwordData == EmptyPasswords && !isChangingPassword
      ensures outcome != Changed ==> passwordData == old(passwordData) && isChangingPassword == old(isChangingPassword)
      ensures profileData == old(profileData) && isEditing == old(isEditing)
    {
      outcome := CheckPasswordChange(passwordData);
      if outcome == Changed {
        passwordData := EmptyPasswords;
        isChangingPassword := false;
      }
    }
  }
}
