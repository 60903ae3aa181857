/**
 * The avatar initial and the display name shown in the application header.
 * Both pick the first present source in a fixed priority order: the first
 * name in the authentication user's metadata, then the first name in the
 * fetched profile row, then the e-mail address, then a literal default.
 * "Present" is JavaScript truthiness: a missing field and an empty string
 * are both absent.
 */
module Header {
  import opened Wrappers
  import opened JsString

  datatype UserMetadata = UserMetadata(firstName: Option<string>, lastName: Option<string>)

  /** The signed-in user of the authentication context. */
  datatype User = User(email: Option<string>, userMetadata: Option<UserMetadata>)

  /** The user's row of the profiles table, once fetched. */
  datatype Profile = Profile(firstName: Option<string>, lastName: Option<string>)

  /** JavaScript truthiness of an optional string. */
  predicate Truthy(s: Option<string>) {
    s.Some? && s.value != ""
  }

  /** `s || fallback` */
  function Or(s: Option<string>, fallback: string): (r: string)
    ensures (s.Some? && r == s.value) || r == fallback
    ensures r == "" <==> !Truthy(s) && fallback == ""
  {
    if Truthy(s) then s.value else fallback
  }

  /** `user?.user_metadata?.first_name` */
  function MetadataFirstName(user: Option<User>): Option<string> {
    if user.Some? && user.value.userMetadata.Some? then user.value.userMetadata.value.firstName else None
  }

  /** `user?.user_metadata?.last_name` */
  function MetadataLastName(user: Option<User>): Option<string> {
    if user.Some? && user.value.userMetadata.Some? then user.value.userMetadata.value.lastName else None
  }

  /** `userProfile?.first_name` */
  function ProfileFirstName(userProfile: Option<Profile>): Option<string> {
    if userProfile.Some? then userProfile.value.firstName else None
  }

  /** `userProfile?.last_name` */
  function ProfileLastName(userProfile: Option<Profile>): Option<string> {
    if userProfile.Some? then userProfile.value.lastName else None
  }

  /** `user?.email` */
  function Email(user: Option<User>): Option<string> {
    if user.Some? then user.value.email else None
  }

  /** `` `${first} ${last || ''}`.trim() `` */
  function FullName(first: string, last: Option<string>): string {
    Trim(first + " " + Or(last, ""))
  }

  /** The avatar letter. */
  function GetUserInitial(user: Option<User>, userProfile: Option<Profile>): (r: string)
    ensures |r| == 1
    ensures !('a' <= r[0] <= 'z')
  {
    if Truthy(MetadataFirstName(user)) then [UpperAscii(MetadataFirstName(user).value[0])]
    else if Truthy(ProfileFirstName(userProfile)) then [UpperAscii(ProfileFirstName(userProfile).value[0])]
    else if Truthy(Email(user)) then [UpperAscii(Email(user).value[0])]
    else "U"
  }

  /** The name shown in the account menu. */
  function GetUserDisplayName(user: Option<User>, userProfile: Option<Profile>): (r: string)
    ensures IsTrimmed(r) || (!Truthy(MetadataFirstName(user)) && !Truthy(ProfileFirstName(userProfile)))
    ensures r == [] ==> Truthy(MetadataFirstName(user)) || Truthy(ProfileFirstName(userProfile))
  {
    if Truthy(MetadataFirstName(user)) then FullName(MetadataFirstName(user).value, MetadataLastName(user))
    else if Truthy(ProfileFirstName(userProfile)) then FullName(ProfileFirstName(userProfile).value, ProfileLastName(userProfile))
    else Or(Email(user), "User")
  }

  // ---------------------------------------------------------------------------
  // Precedence, stated independently of the if-chains above

  /** The name sources in priority order. */
  function NameSources(user: Option<User>, userProfile: Option<Profile>): seq<Option<string>> {
    [MetadataFirstName(user), ProfileFirstName(userProfile), Email(user)]
  }

  /** The index of the first truthy source, if any. */
  function FirstTruthy(sources: seq<Option<string>>): (r: Option<nat>)
    ensures r.Some? ==> r.value < |sources| && Truthy(sources[r.value])
    ensures r.Some? ==> forall j :: 0 <= j < r.value ==> !Truthy(sources[j])
    ensures r.None? <==> forall j :: 0 <= j < |sources| ==> !Truthy(sources[j])
  {
    if sources == [] then None
    else if Truthy(sources[0]) then Some(0)
    else match FirstTruthy(sources[1..])
      case Some(k) => Some(k + 1)
      case None => None
  }

  /** The initial is the upper-cased first character of the first present source, else `U`. */
  lemma InitialFollowsPrecedence(user: Option<User>, userProfile: Option<Profile>)
    ensures var sources := NameSources(user, userProfile);
      GetUserInitial(user, userProfile) ==
        match FirstTruthy(sources)
        case Some(k) => [UpperAscii(sources[k].value[0])]
        case None => "U"
  {
    var sources := NameSources(user, userProfile);
    assert sources[0] == MetadataFirstName(user) && sources[1] == ProfileFirstName(userProfile);
    assert sources[2] == Email(user);
    match FirstTruthy(sources)
    case Some(k) =>
      assert k < 3 && Truthy(sources[k]);
      assert forall j :: 0 <= j < k ==> !Truthy(sources[j]);
    case None =>
      assert !Truthy(sources[0]) && !Truthy(sources[1]) && !Truthy(sources[2]);
  }

  /** The display name follows the same order: a full name from metadata or profile, else the e-mail, else `User`. */
  lemma DisplayNameFollowsPrecedence(user: Option<User>, userProfile: Option<Profile>)
    ensures var sources := NameSources(user, userProfile);
      GetUserDisplayName(user, userProfile) ==
        match FirstTruthy(sources)
        case Some(0) => FullName(sources[0].value, MetadataLastName(user))
        case Some(1) => FullName(sources[1].value, ProfileLastName(userProfile))
        case Some(_) => Email(user).value
        case None => "User"
  {
    var sources := NameSources(user, userProfile);
    assert sources[0] == MetadataFirstName(user) && sources[1] == ProfileFirstName(userProfile);
    assert sources[2] == Email(user);
    match FirstTruthy(sources)
    case Some(k) =>
      assert k < 3 && Truthy(sources[k]);
      assert forall j :: 0 <= j < k ==> !Truthy(sources[j]);
    case None =>
      assert !Truthy(sources[0]) && !Truthy(sources[1]) && !Truthy(sources[2]);
  }

  /** Once the metadata has a first name, the profile is never consulted. */
  lemma MetadataNameShadowsProfile(user: Option<User>, p: Option<Profile>, q: Option<Profile>)
    requires Truthy(MetadataFirstName(user))
    ensures GetUserInitial(user, p) == GetUserInitial(user, q)
    ensures GetUserDisplayName(user, p) == GetUserDisplayName(user, q)
  {
  }

  // ---------------------------------------------------------------------------
  // Empty strings count as absent

  /** Replaces an empty string by an absent value. */
  function DropEmpty(s: Option<string>): (r: Option<string>)
    ensures r.None? || r.value != ""
    ensures Truthy(r) == Truthy(s)
    ensures r.Some? ==> r == s
  {
    if Truthy(s) then s else None
  }

  function DropEmptyUser(user: Option<User>): Option<User> {
    match user
    case None => None
    case Some(User(email, md)) =>
      Some(User(DropEmpty(email),
        match md
        case None => None
        case Some(UserMetadata(f, l)) => Some(UserMetadata(DropEmpty(f), DropEmpty(l)))))
  }

  function DropEmptyProfile(userProfile: Option<Profile>): Option<Profile> {
    match userProfile
    case None => None
    case Some(Profile(f, l)) => Some(Profile(DropEmpty(f), DropEmpty(l)))
  }

  /** Turning every empty field into an absent one changes neither result. */
  lemma EmptyStringsAreAbsent(user: Option<User>, userProfile: Option<Profile>)
    ensures GetUserInitial(DropEmptyUser(user), DropEmptyProfile(userProfile)) == GetUserInitial(user, userProfile)
    ensures GetUserDisplayName(DropEmptyUser(user), DropEmptyProfile(userProfile)) == GetUserDisplayName(user, userProfile)
  {
    var u, p := DropEmptyUser(user), DropEmptyProfile(userProfile);
    assert Truthy(MetadataFirstName(u)) == Truthy(MetadataFirstName(user));
    assert Truthy(ProfileFirstName(p)) == Truthy(ProfileFirstName(userProfile));
    assert Truthy(Email(u)) == Truthy(Email(user));
    assert Or(MetadataLastName(u), "") == Or(MetadataLastName(user), "");
    assert Or(ProfileLastName(p), "") == Or(ProfileLastName(userProfile), "");
  }

  // ---------------------------------------------------------------------------
  // Shape of the full name

  /** Without a last name the full name is the trimmed first name: no trailing space. */
  lemma {:induction false} FullNameWithoutLastName(first: string, last: Option<string>)
    requires !Truthy(last)
    ensures FullName(first, last) == Trim(first)
    ensures IsTrimmed(first) ==> FullName(first, last) == first
  {
    assert first + " " + Or(last, "") == first + [' '];
    TrimAppendWhiteSpace(first, ' ');
    if IsTrimmed(first) {
      TrimOfTrimmed(first);
    }
  }

  /** With a last name, two names free of outer white space are joined by exactly one space. */
  lemma FullNameWithLastName(first: string, last: Option<string>)
    requires first != [] && IsTrimmed(first)
    requires Truthy(last) && IsTrimmed(last.value)
    ensures FullName(first, last) == first + " " + last.value
  {
    var s := first + " " + last.value;
    assert s[0] == first[0] && s[|s| - 1] == last.value[|last.value| - 1];
    TrimOfTrimmed(s);
  }

  /** `s` is present and starts with white space. */
  predicate StartsWithWhiteSpace(s: Option<string>) {
    s.Some? && s.value != [] && IsWhiteSpace(s.value[0])
  }

  /** When no first name starts with white space, the avatar letter is the
      upper-cased first letter of the display name. */
  lemma InitialIsFirstLetterOfDisplayName(user: Option<User>, userProfile: Option<Profile>)
    requires !StartsWithWhiteSpace(MetadataFirstName(user))
    requires !StartsWithWhiteSpace(ProfileFirstName(userProfile))
    ensures GetUserDisplayName(user, userProfile) != []
    ensures GetUserInitial(user, userProfile) == [UpperAscii(GetUserDisplayName(user, userProfile)[0])]
  {
    if Truthy(MetadataFirstName(user)) {
      var first := MetadataFirstName(user).value;
      TrimKeepsFirstChar(first + " " + Or(MetadataLastName(user), ""));
    } else if Truthy(ProfileFirstName(userProfile)) {
      var first := ProfileFirstName(userProfile).value;
      TrimKeepsFirstChar(first + " " + Or(ProfileLastName(userProfile), ""));
    }
  }
}
