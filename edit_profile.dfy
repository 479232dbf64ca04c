/** The profile editor (EditProfile.jsx): the avatar-file guard chain, the diff of the
    form against the stored user that builds the update payload, and the effect that
    shows backend errors or resynchronises the form from the user. The file read, the
    backend call, toasts and navigation are outside the model: a read is its result
    string, and the other three are what the operations return. */
module EditProfile {
  import opened Option

  /** 5 MiB: the largest accepted avatar file, in bytes. */
  const MaxAvatarBytes := 5 * 1024 * 1024

  /** The avatar shown, and stored in the form on a resync, when the user has none. */
  const PlaceholderAvatar := "https://i.pravatar.cc/150?img=3"

  const SizeMessage := "Image size should be less than 5MB"
  const TypeMessage := "Please select an image file"
  const NoChangesMessage := "No changes made"
  const SuccessMessage := "Profile Updated"
  const ProfileRoute := "/profile"

  /** The selected file's size in bytes and its MIME type. */
  datatype AvatarFile = AvatarFile(size: int, mimeType: string)

  /** The stored user; a missing name, phone number or avatar URL is `""`. */
  datatype User = User(name: string, phoneNumber: string, avatarUrl: string)

  /** The form's three field values. */
  datatype ProfileForm = ProfileForm(name: string, phoneNumber: string, avatar: string)

  datatype Field = Name | PhoneNumber | Avatar

  /** What a file selection leads to. */
  datatype AvatarCheck = NoFile | Rejected(message: string) | Accepted

  /** What a submission leads to: a local rejection, or the payload dispatched, then a
      success message and navigation. */
  datatype SubmitOutcome =
    | NoChanges(message: string)
    | Dispatched(payload: map<Field, string>, message: string, route: string)

  /** What the errors/user effect does. */
  datatype SyncOutcome = ShowAndClearErrors(errors: seq<string>) | Resynced | NoSync

  function FieldOf(form: ProfileForm, f: Field): string {
    match f
    case Name => form.name
    case PhoneNumber => form.phoneNumber
    case Avatar => form.avatar
  }

  /** `url || fallback`. */
  function OrElse(value: string, fallback: string): string {
    if value != "" then value else fallback
  }

  /** The guard chain of the file input: no file, then size, then MIME type. */
  function CheckAvatar(file: Option<AvatarFile>): (r: AvatarCheck)
    ensures r == NoFile <==> file.None?
    ensures r == Rejected(SizeMessage) <==> file.Some? && file.value.size > MaxAvatarBytes
    ensures r == Rejected(TypeMessage) <==> file.Some? && file.value.size <= MaxAvatarBytes && !("image/" <= file.value.mimeType)
    ensures r == Accepted <==> file.Some? && file.value.size <= MaxAvatarBytes && "image/" <= file.value.mimeType
  {
    if file.None? then NoFile
    else if file.value.size > MaxAvatarBytes then Rejected(SizeMessage)
    else if !("image/" <= file.value.mimeType) then Rejected(TypeMessage)
    else Accepted
  }

  /** The size check comes first: an oversized non-image file gets the size message,
      and a file of exactly 5 MiB passes the size check. */
  lemma SizeCheckedFirst(mimeType: string)
    ensures CheckAvatar(Some(AvatarFile(MaxAvatarBytes + 1, mimeType))) == Rejected(SizeMessage)
    ensures CheckAvatar(Some(AvatarFile(MaxAvatarBytes, mimeType))) != Rejected(SizeMessage)
  {
  }

  /** The values submissions are compared with: the stored user's fields, `""` when missing. */
  function Original(user: Option<User>): (r: ProfileForm)
    ensures user.None? ==> forall f :: FieldOf(r, f) == ""
    ensures user.Some? ==> r.name == user.value.name && r.phoneNumber == user.value.phoneNumber
    ensures user.Some? ==> r.avatar == user.value.avatarUrl
  {
    if user.Some? then ProfileForm(user.value.name, user.value.phoneNumber, user.value.avatarUrl)
    else ProfileForm("", "", "")
  }

  /** The form as the resync effect leaves it: the avatar falls back to the placeholder. */
  function SyncedForm(user: User): (r: ProfileForm)
    ensures r.avatar != ""
    ensures user.avatarUrl != "" ==> r.avatar == user.avatarUrl
    ensures user.avatarUrl == "" ==> r.avatar == PlaceholderAvatar
    ensures r.name == user.name && r.phoneNumber == user.phoneNumber
  {
    ProfileForm(user.name, user.phoneNumber, OrElse(user.avatarUrl, PlaceholderAvatar))
  }

  /** The update payload: a field is included exactly when its value is non-empty and
      differs from the original, and then with its form value. */
  function UpdatedFields(value: ProfileForm, original: ProfileForm): (m: map<Field, string>)
    ensures forall f :: f in m <==> FieldOf(value, f) != "" && FieldOf(value, f) != FieldOf(original, f)
    ensures forall f :: f in m ==> m[f] == FieldOf(value, f)
  {
    var withName := if value.name != "" && value.name != original.name then map[Name := value.name] else map[];
    var withPhone := if value.phoneNumber != "" && value.phoneNumber != original.phoneNumber then withName[PhoneNumber := value.phoneNumber] else withName;
    if value.avatar != "" && value.avatar != original.avatar then withPhone[Avatar := value.avatar] else withPhone
  }

  /** A form identical to the original, or one whose only differences are cleared fields,
      yields an empty payload. */
  lemma ClearedOrUnchangedIsNoChange(value: ProfileForm, original: ProfileForm)
    requires forall f :: FieldOf(value, f) == "" || FieldOf(value, f) == FieldOf(original, f)
    ensures UpdatedFields(value, original) == map[]
  {
    var m := UpdatedFields(value, original);
    assert m.Keys == {} by {
      forall f | f in m ensures false {
      }
    }
  }

  /** After a resync, a user with an avatar who changes nothing has nothing to submit,
      whereas a user with no avatar always submits the placeholder as the new avatar. */
  lemma ResyncedFormDiff(user: User)
    ensures user.avatarUrl != "" ==> UpdatedFields(SyncedForm(user), Original(Some(user))) == map[]
    ensures user.avatarUrl == "" ==> UpdatedFields(SyncedForm(user), Original(Some(user))) == map[Avatar := PlaceholderAvatar]
  {
    var value, original := SyncedForm(user), Original(Some(user));
    var m := UpdatedFields(value, original);
    if user.avatarUrl != "" {
      ClearedOrUnchangedIsNoChange(value, original);
    } else {
      assert Avatar in m;
      assert m.Keys == {Avatar} by {
        forall f | f in m ensures f == Avatar {
        }
      }
    }
  }

  /** The editor's own state: the preview image and the form. */
  class Editor {
    var avatarPreview: string
    var form: ProfileForm

    /** Mounting: both start from the stored user, the preview falling back to the placeholder. */
    constructor (user: Option<User>)
      ensures form == Original(user)
      ensures avatarPreview == OrElse(Original(user).avatar, PlaceholderAvatar)
    {
      form := if user.Some? then ProfileForm(user.value.name, user.value.phoneNumber, user.value.avatarUrl) else ProfileForm("", "", "");
      avatarPreview := if user.Some? && user.value.avatarUrl != "" then user.value.avatarUrl else PlaceholderAvatar;
    }

    /** The file input's `onChange`, with `readResult` the data URL the read produces.
        Only an accepted file changes anything, and it sets the preview and the form's
        avatar to the same value. */
    method OnChange(file: Option<AvatarFile>, readResult: string) returns (message: Option<string>)
      modifies this
      ensures CheckAvatar(file).Rejected? ==> message == Some(CheckAvatar(file).message)
      ensures !CheckAvatar(file).Rejected? ==> message == None
      ensures CheckAvatar(file) == Accepted ==> avatarPreview == readResult && form == old(form).(avatar := readResult)
      ensures CheckAvatar(file) != Accepted ==> avatarPreview == old(avatarPreview) && form == old(form)
    {
      if file.None? {
        return None;
      }
      if file.value.size > MaxAvatarBytes {
        return Some(SizeMessage);
      }
      if !("image/" <= file.value.mimeType) {
        return Some(TypeMessage);
      }
      avatarPreview := readResult;
      form := form.(avatar := readResult);
      message := None;
    }

    /** The name input's `onChange`. */
    method ChangeName(value: string)
      modifies this
      ensures form == old(form).(name := value) && avatarPreview == old(avatarPreview)
    {
      form := form.(name := value);
    }

    /** The phone-number input's `onChange`. */
    method ChangePhoneNumber(value: string)
      modifies this
      ensures form == old(form).(phoneNumber := value) && avatarPreview == old(avatarPreview)
    {
      form := form.(phoneNumber := value);
    }

    /** `onSubmit`: builds the payload of changed fields against the stored user; an
        empty payload is rejected locally, anything else is dispatched as built. */
    method OnSubmit(user: Option<User>) returns (outcome: SubmitOutcome)
      ensures outcome.NoChanges? <==> UpdatedFields(form, Original(user)) == map[]
      ensures outcome.NoChanges? ==> outcome.message == NoChangesMessage
      ensures outcome.Dispatched? ==> outcome == Dispatched(UpdatedFields(form, Original(user)), SuccessMessage, ProfileRoute)
    {
      var original := Original(user);
      var updatedFields: map<Field, string> := map[];
      if form.name != "" && form.name != original.name {
        updatedFields := updatedFields[Name := form.name];
      }
      if form.phoneNumber != "" && form.phoneNumber != original.phoneNumber {
        updatedFields := updatedFields[PhoneNumber := form.phoneNumber];
      }
      if form.avatar != "" && form.avatar != original.avatar {
        updatedFields := updatedFields[Avatar := form.avatar];
      }
      assert updatedFields == UpdatedFields(form, original);
      if |updatedFields| == 0 {
        return NoChanges(NoChangesMessage);
      }
      outcome := Dispatched(updatedFields, SuccessMessage, ProfileRoute);
    }

    /** The errors/user effect: pending errors are shown and cleared and the form is left
        alone; otherwise a present user resets the form and the preview. */
    method Sync(user: Option<User>, errors: seq<string>) returns (outcome: SyncOutcome)
      modifies this
      ensures |errors| > 0 ==> outcome == ShowAndClearErrors(errors) && form == old(form) && avatarPreview == old(avatarPreview)
      ensures |errors| == 0 && user.Some? ==> outcome == Resynced && form == SyncedForm(user.value) && avatarPreview == form.avatar
      ensures |errors| == 0 && user.None? ==> outcome == NoSync && form == old(form) && avatarPreview == old(avatarPreview)
    {
      if |errors| > 0 {
        outcome := ShowAndClearErrors(errors);
      } else if user.Some? {
        var u := user.value;
        form := form.(name := u.name);
        form := form.(phoneNumber := u.phoneNumber);
        form := form.(avatar := if u.avatarUrl != "" then u.avatarUrl else PlaceholderAvatar);
        avatarPreview := if u.avatarUrl != "" then u.avatarUrl else PlaceholderAvatar;
        outcome := Resynced;
      } else {
        outcome := NoSync;
      }
    }
  }
}
