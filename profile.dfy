/** The profile page: the local row used when the user has no stored
    profile, the seeding of the edit form, the field updates, the row sent
    on save, the loading and saving flags, and the avatar initial. */
module Profile {
  import opened Common

  /** A `profiles` row, every column optional (`undefined` and `null` alike). */
  datatype ProfileRow = ProfileRow(
    id: Option<string>,
    displayName: Option<string>,
    fullName: Option<string>,
    email: Option<string>,
    aadhaar: Option<string>,
    phone: Option<string>,
    address: Option<string>,
    updatedAt: Option<string>)

  const EmptyRow := ProfileRow(None, None, None, None, None, None, None, None)

  /** The minimal local row for a user without a stored profile. It is built
      with `??`, so an empty metadata name is kept, and any email, even one
      whose prefix is empty, gives a display name. */
  function FallbackRow(u: AuthUser): (r: ProfileRow)
    ensures r.id == Some(u.id) && r.email == u.email && r.fullName == u.metadataName
    ensures u.metadataName.Some? ==> r.displayName == u.metadataName
    ensures u.metadataName.None? && u.email.Some? ==> r.displayName == Some(BeforeAt(u.email.value))
    ensures r.displayName.None? <==> u.metadataName.None? && u.email.None?
    ensures r.aadhaar.None? && r.phone.None? && r.address.None? && r.updatedAt.None?
  {
    var prefix := if u.email.Some? then Some(BeforeAt(u.email.value)) else None;
    ProfileRow(Some(u.id),
               if u.metadataName.Some? then u.metadataName else prefix,
               u.metadataName, u.email, None, None, None, None)
  }

  /** The edit form seeded from a row: the demo fields become "" when
      missing, the email falls back to the signed-in email, and
      `updated_at` is not part of the form. */
  function SeedForm(row: ProfileRow, authEmail: Option<string>): (f: ProfileRow)
    ensures f.id == row.id && f.displayName == row.displayName && f.fullName == row.fullName
    ensures row.email.Some? ==> f.email == row.email
    ensures row.email.None? ==> f.email == authEmail
    ensures f.aadhaar == Some(row.aadhaar.GetOr("")) && f.phone == Some(row.phone.GetOr(""))
    ensures f.address == Some(row.address.GetOr(""))
    ensures f.updatedAt.None?
  {
    ProfileRow(row.id, row.displayName, row.fullName,
               if row.email.Some? then row.email else authEmail,
               Some(row.aadhaar.GetOr("")), Some(row.phone.GetOr("")), Some(row.address.GetOr("")),
               None)
  }

  /** Seeding a form that was already seeded changes nothing. */
  lemma SeedIdempotent(row: ProfileRow, authEmail: Option<string>)
    ensures SeedForm(SeedForm(row, authEmail), authEmail) == SeedForm(row, authEmail)
  {
  }

  /** The form seeded for a user without a stored profile carries the
      user's id and email. */
  lemma FallbackSeed(u: AuthUser)
    ensures SeedForm(FallbackRow(u), u.email).id == Some(u.id)
    ensures SeedForm(FallbackRow(u), u.email).email == u.email
  {
  }

  /** The keys of a profile row, as `handleChange` takes them. */
  datatype Key = IdKey | DisplayNameKey | FullNameKey | EmailKey | AadhaarKey | PhoneKey | AddressKey | UpdatedAtKey

  function Get(r: ProfileRow, k: Key): Option<string> {
    match k
    case IdKey => r.id
    case DisplayNameKey => r.displayName
    case FullNameKey => r.fullName
    case EmailKey => r.email
    case AadhaarKey => r.aadhaar
    case PhoneKey => r.phone
    case AddressKey => r.address
    case UpdatedAtKey => r.updatedAt
  }

  /** `{ ...s, [k]: v }`: key `k` holds `v`, every other key is unchanged. */
  function Set(r: ProfileRow, k: Key, v: string): (s: ProfileRow)
    ensures Get(s, k) == Some(v)
    ensures forall j :: j != k ==> Get(s, j) == Get(r, j)
  {
    match k
    case IdKey => r.(id := Some(v))
    case DisplayNameKey => r.(displayName := Some(v))
    case FullNameKey => r.(fullName := Some(v))
    case EmailKey => r.(email := Some(v))
    case AadhaarKey => r.(aadhaar := Some(v))
    case PhoneKey => r.(phone := Some(v))
    case AddressKey => r.(address := Some(v))
    case UpdatedAtKey => r.(updatedAt := Some(v))
  }

  /** Two rows that agree on every key are the same row. */
  lemma RowsByKeys(a: ProfileRow, b: ProfileRow)
    requires forall k :: Get(a, k) == Get(b, k)
    ensures a == b
  {
    assert Get(a, IdKey) == Get(b, IdKey) && Get(a, DisplayNameKey) == Get(b, DisplayNameKey);
    assert Get(a, FullNameKey) == Get(b, FullNameKey) && Get(a, EmailKey) == Get(b, EmailKey);
    assert Get(a, AadhaarKey) == Get(b, AadhaarKey) && Get(a, PhoneKey) == Get(b, PhoneKey);
    assert Get(a, AddressKey) == Get(b, AddressKey) && Get(a, UpdatedAtKey) == Get(b, UpdatedAtKey);
  }

  /** A later change of the same key overrides an earlier one; changes of
      different keys commute. */
  lemma SetSetSame(r: ProfileRow, k: Key, v: string, w: string)
    ensures Set(Set(r, k, v), k, w) == Set(r, k, w)
  {
    RowsByKeys(Set(Set(r, k, v), k, w), Set(r, k, w));
  }

  lemma SetCommutes(r: ProfileRow, k: Key, v: string, j: Key, w: string)
    requires k != j
    ensures Set(Set(r, k, v), j, w) == Set(Set(r, j, w), k, v)
  {
    RowsByKeys(Set(Set(r, k, v), j, w), Set(Set(r, j, w), k, v));
  }

  /** The row `saveProfile` upserts: it has no email column. */
  datatype ProfileUpsert = ProfileUpsert(
    id: string,
    displayName: Option<string>,
    fullName: Option<string>,
    aadhaar: Option<string>,
    phone: Option<string>,
    address: Option<string>)

  /** `upsertRow`: keyed by the signed-in user's id. */
  function UpsertRow(userId: string, f: ProfileRow): (r: ProfileUpsert)
    ensures r.id == userId
    ensures r.displayName == f.displayName && r.fullName == f.fullName
    ensures r.aadhaar == f.aadhaar && r.phone == f.phone && r.address == f.address
  {
    ProfileUpsert(userId, f.displayName, f.fullName, f.aadhaar, f.phone, f.address)
  }

  /** Editing the form's id or email cannot change what is saved. */
  lemma UpsertIgnoresIdAndEmail(userId: string, f: ProfileRow, v: string)
    ensures UpsertRow(userId, Set(f, IdKey, v)) == UpsertRow(userId, f)
    ensures UpsertRow(userId, Set(f, EmailKey, v)) == UpsertRow(userId, f)
  {
  }

  /** ASCII `toUpperCase` of one character; other characters are kept. */
  function Upper(c: char): (u: char)
    ensures !('a' <= u <= 'z')
    ensures !('a' <= c <= 'z') ==> u == c
    ensures 'a' <= c <= 'z' ==> u as int == c as int - 32
  {
    if 'a' <= c <= 'z' then (c as int - 32) as char else c
  }

  /** The avatar letter: the upper-cased first character of the display
      name, or "U" when there is no display name or it is empty. */
  function AvatarInitial(displayName: Option<string>): (r: string)
    ensures |r| == 1
    ensures displayName.None? || displayName.value == [] ==> r == "U"
    ensures displayName.Some? && displayName.value != [] ==> r == [Upper(displayName.value[0])]
  {
    var s := displayName.GetOr("U");
    if s == [] then "U" else [Upper(s[0])]
  }

  /** The letter shown for a name is its own initial. */
  lemma AvatarInitialStable(displayName: Option<string>)
    ensures AvatarInitial(Some(AvatarInitial(displayName))) == AvatarInitial(displayName)
  {
  }

  /** What loading reports: no user, a failure, or the user with the
      stored row if there is one. */
  datatype LoadOutcome = LoadNoUser | LoadThrew | Loaded(user: AuthUser, row: Option<ProfileRow>)

  /** The upsert's answer; a successful one is followed by a reload. */
  datatype UpsertResult = UpsertFailed(message: Option<string>) | UpsertThrew(message: Option<string>) | Upserted(reload: LoadOutcome)

  datatype SaveOutcome = SaveNoUser | SaveWith(userId: string, result: UpsertResult)

  class ProfilePage {
    var profile: Option<ProfileRow>
    var userEmail: Option<string>
    var loading: bool
    var editing: bool
    var saving: bool
    var message: Option<string>
    var error: Option<string>
    var form: ProfileRow

    constructor ()
      ensures profile == None && userEmail == None && loading && !editing && !saving
      ensures message == None && error == None && form == EmptyRow
    {
      profile, userEmail := None, None;
      loading, editing, saving := true, false, false;
      message, error := None, None;
      form := EmptyRow;
    }

    /** `loadProfile` */
    method LoadProfile(outcome: LoadOutcome)
      modifies this`profile, this`userEmail, this`loading, this`error, this`form
      ensures !loading
      ensures outcome.LoadNoUser? ==>
                profile == None && userEmail == None && error == old(error) && form == old(form)
      ensures outcome.LoadThrew? ==>
                error == Some("Failed to load profile.") && profile == old(profile)
                && userEmail == old(userEmail) && form == old(form)
      ensures outcome.Loaded? ==>
                var row := if outcome.row.Some? then outcome.row.value else FallbackRow(outcome.user);
                && userEmail == outcome.user.email && profile == Some(row)
                && form == SeedForm(row, outcome.user.email) && error == old(error)
    {
      loading := true;
      match outcome {
        case LoadNoUser =>
          profile, userEmail := None, None;
        case LoadThrew =>
          error := Some("Failed to load profile.");
        case Loaded(user, stored) =>
          userEmail := user.email;
          var row := if stored.Some? then stored.value else FallbackRow(user);
          profile := Some(row);
          form := SeedForm(row, user.email);
      }
      loading := false;
    }

    /** `startEdit` */
    method StartEdit()
      modifies this`message, this`error, this`editing
      ensures message == None && error == None && editing
    {
      message, error, editing := None, None, true;
    }

    /** `cancelEdit`: back to the values of the loaded profile. */
    method CancelEdit()
      modifies this`form, this`editing, this`message, this`error
      ensures profile.Some? ==> form == SeedForm(profile.value, userEmail)
      ensures profile.None? ==> form == old(form)
      ensures !editing && message == None && error == None
    {
      if profile.Some? {
        form := SeedForm(profile.value, userEmail);
      }
      editing, message, error := false, None, None;
    }

    /** `handleChange(k, v)` */
    method HandleChange(k: Key, v: string)
      modifies this`form
      ensures form == Set(old(form), k, v)
    {
      form := Set(form, k, v);
    }

    /** `saveProfile`; `sent` is the row upserted, if one was. */
    method SaveProfile(outcome: SaveOutcome) returns (sent: Option<ProfileUpsert>)
      modifies this
      ensures !saving
      ensures outcome.SaveNoUser? ==>
                sent == None && error == Some("Not authenticated.") && message == None
                && editing == old(editing) && profile == old(profile) && form == old(form)
                && userEmail == old(userEmail) && loading == old(loading)
      ensures outcome.SaveWith? ==> sent == Some(UpsertRow(outcome.userId, old(form)))
      ensures outcome.SaveWith? && !outcome.result.Upserted? ==>
                error == Some(outcome.result.message.GetOr("Save failed")) && message == None
                && editing == old(editing) && profile == old(profile) && form == old(form)
                && userEmail == old(userEmail) && loading == old(loading)
      ensures outcome.SaveWith? && outcome.result.Upserted? ==>
                message == Some("Profile saved.") && !editing && !loading
                && (outcome.result.reload.LoadThrew? ==> error == Some("Failed to load profile."))
                && (!outcome.result.reload.LoadThrew? ==> error == None)
      ensures outcome.SaveWith? && outcome.result.Upserted? && outcome.result.reload.LoadNoUser? ==>
                profile == None && userEmail == None && form == old(form)
      ensures outcome.SaveWith? && outcome.result.Upserted? && outcome.result.reload.LoadThrew? ==>
                profile == old(profile) && userEmail == old(userEmail) && form == old(form)
      ensures outcome.SaveWith? && outcome.result.Upserted? && outcome.result.reload.Loaded? ==>
                var reload := outcome.result.reload;
                var row := if reload.row.Some? then reload.row.value else FallbackRow(reload.user);
                profile == Some(row) && form == SeedForm(row, reload.user.email)
                && userEmail == reload.user.email
    {
      sent := None;
      saving := true;
      message, error := None, None;
      match outcome {
        case SaveNoUser =>
          error := Some("Not authenticated.");
        case SaveWith(userId, result) =>
          sent := Some(UpsertRow(userId, form));
          match result {
            case UpsertFailed(m) =>
              error := Some(m.GetOr("Save failed"));
            case UpsertThrew(m) =>
              error := Some(m.GetOr("Save failed"));
            case Upserted(reload) =>
              message := Some("Profile saved.");
              LoadProfile(reload);
              editing := false;
          }
      }
      saving := false;
    }
  }
}
