/** Account provisioning (`src/app/actions/auth.ts`): registration creates
    the auth user and its free profile; login creates the profile when it
    cannot read one.

    The auth service's replies are parameters. The `profiles` table is a
    map from `id`, its primary key, so inserting an existing id fails as a
    duplicate key; any other store failure is a parameter holding the
    store's message. */
module Auth {

  import opened Common

  /** `email.split('@')[0]`: the text before the first '@', or all of it. */
  function DefaultName(email: string): (r: string)
    ensures '@' !in r
    ensures |r| <= |email| && r == email[..|r|]
    ensures |r| < |email| ==> email[|r|] == '@'
  {
    if email == [] || email[0] == '@' then [] else [email[0]] + DefaultName(email[1..])
  }

  /** The default name of an address is its local part. */
  lemma DefaultNameOfAddress(local: string, domain: string)
    requires '@' !in local
    ensures DefaultName(local + "@" + domain) == local
  {
    var email := local + "@" + domain;
    assert email[|local|] == '@';
    assert email[..|local|] == local;
  }

  /** `name || email.split('@')[0]`: an absent or empty name falls back. */
  function DisplayName(name: Option<string>, email: string): (r: string)
    ensures Truthy(name) ==> r == name.value
    ensures !Truthy(name) ==> r == DefaultName(email)
  {
    if Truthy(name) then name.value else DefaultName(email)
  }

  /** A user of the auth service; `metadataName` is `user_metadata.name`. */
  datatype AuthUser = AuthUser(id: string, email: string, metadataName: Option<string>)

  /** What `createUser` and `signInWithPassword` answer: an error, or data
      whose `user` may be null. */
  datatype AuthReply = AuthError(message: string) | AuthOk(user: Option<AuthUser>)

  /** A `profiles` row. */
  datatype Profile = Profile(id: string, email: string, credits: int, plan: string)

  /** The profile both actions create. */
  function FreeProfile(u: AuthUser): Profile {
    Profile(u.id, u.email, 30, "free")
  }

  /** The user object both actions return. */
  datatype UserView = UserView(id: string, email: string, name: string, plan: string, credits: int)

  datatype AuthResult = SignedIn(user: UserView) | AuthFailure(error: string)

  /** The arguments of the `createUser` call. */
  datatype CreateUserRequest = CreateUserRequest(email: string, password: string, metadataName: string)

  const UserNotReturned := "Usuário não retornado"
  const UserNotFound := "Usuário não encontrado"
  const DuplicateKey := "duplicate key value violates unique constraint \"profiles_pkey\""

  /** The message of a failed insert: the store's own, or the duplicate key. */
  function InsertError(profiles: map<string, Profile>, p: Profile, storeError: Option<string>): string {
    if storeError.Some? then storeError.value else DuplicateKey
  }

  /** `.from('profiles').insert(...)`. */
  method InsertProfile(profiles: map<string, Profile>, p: Profile, storeError: Option<string>)
    returns (reply: StoreReply, profiles': map<string, Profile>)
    ensures reply == Done <==> storeError.None? && p.id !in profiles
    ensures reply == Done ==> profiles' == profiles[p.id := p]
    ensures reply != Done ==> profiles' == profiles
    ensures reply != Done ==> reply == StoreError(InsertError(profiles, p, storeError))
  {
    if storeError.Some? {
      return StoreError(storeError.value), profiles;
    }
    if p.id in profiles {
      return StoreError(DuplicateKey), profiles;
    }
    return Done, profiles[p.id := p];
  }

  /** `registerUser`. */
  method RegisterUser(email: string, password: string, name: Option<string>, created: AuthReply,
                      profiles: map<string, Profile>, storeError: Option<string>)
    returns (result: AuthResult, request: CreateUserRequest, profiles': map<string, Profile>)
    ensures request == CreateUserRequest(email, password, DisplayName(name, email))
    ensures created.AuthError? ==> result == AuthFailure(created.message) && profiles' == profiles
    ensures created == AuthOk(None) ==> result == AuthFailure(UserNotReturned) && profiles' == profiles
    ensures created.AuthOk? && created.user.Some? ==>
      var u := created.user.value;
      if storeError.None? && u.id !in profiles then
        profiles' == profiles[u.id := FreeProfile(u)]
        && result == SignedIn(UserView(u.id, u.email, DisplayName(name, email), "free", 30))
      else
        profiles' == profiles && result == AuthFailure(InsertError(profiles, FreeProfile(u), storeError))
  {
    request := CreateUserRequest(email, password, DisplayName(name, email));
    match created
    case AuthError(message) =>
      return AuthFailure(message), request, profiles;
    case AuthOk(None) =>
      return AuthFailure(UserNotReturned), request, profiles;
    case AuthOk(Some(u)) =>
      var reply;
      reply, profiles' := InsertProfile(profiles, FreeProfile(u), storeError);
      if reply.StoreError? {
        return AuthFailure(reply.message), request, profiles';
      }
      result := SignedIn(UserView(u.id, u.email, DisplayName(name, email), "free", 30));
  }

  /** `loginUser`: sign in, read the profile with `.single()`, and create a
      free one when the read errors or finds nothing. */
  method LoginUser(email: string, password: string, signedIn: AuthReply,
                   profiles: map<string, Profile>, lookupFails: bool, storeError: Option<string>)
    returns (result: AuthResult, profiles': map<string, Profile>)
    ensures signedIn.AuthError? ==> result == AuthFailure(signedIn.message) && profiles' == profiles
    ensures signedIn == AuthOk(None) ==> result == AuthFailure(UserNotFound) && profiles' == profiles
    ensures signedIn.AuthOk? && signedIn.user.Some? ==>
      var u := signedIn.user.value;
      && (!lookupFails && u.id in profiles ==>
            var p := profiles[u.id];
            profiles' == profiles
            && result == SignedIn(UserView(u.id, u.email, DisplayName(u.metadataName, p.email), p.plan, p.credits)))
      && (lookupFails || u.id !in profiles ==>
            if storeError.None? && u.id !in profiles then
              profiles' == profiles[u.id := FreeProfile(u)]
              && result == SignedIn(UserView(u.id, u.email, DisplayName(u.metadataName, u.email), "free", 30))
            else
              profiles' == profiles && result == AuthFailure(InsertError(profiles, FreeProfile(u), storeError)))
  {
    match signedIn
    case AuthError(message) =>
      return AuthFailure(message), profiles;
    case AuthOk(None) =>
      return AuthFailure(UserNotFound), profiles;
    case AuthOk(Some(u)) =>
      if lookupFails || u.id !in profiles {
        var reply;
        reply, profiles' := InsertProfile(profiles, FreeProfile(u), storeError);
        if reply.StoreError? {
          return AuthFailure(reply.message), profiles';
        }
        var newProfile := FreeProfile(u);
        return SignedIn(UserView(u.id, u.email, DisplayName(u.metadataName, u.email), newProfile.plan, newProfile.credits)), profiles';
      }
      var profile := profiles[u.id];
      return SignedIn(UserView(u.id, u.email, DisplayName(u.metadataName, profile.email), profile.plan, profile.credits)), profiles;
  }

  /** Every profile either action writes is the free profile of the auth
      user: id equal to the user's id, plan `free`, 30 credits. */
  predicate ProvisionedFrom(before: map<string, Profile>, after: map<string, Profile>, u: AuthUser) {
    after == before || (u.id !in before && after == before[u.id := FreeProfile(u)])
  }

  /** A profile lookup that fails while the profile exists makes login try
      to insert it again, and the duplicate key fails the login. */
  method LoginWithFailedLookup(u: AuthUser, email: string, password: string, profiles: map<string, Profile>)
    returns (result: AuthResult)
    requires u.id in profiles
    ensures result == AuthFailure(DuplicateKey)
  {
    var after;
    result, after := LoginUser(email, password, AuthOk(Some(u)), profiles, true, None);
  }

  /** Login is get-or-create: once a login has created the profile, the next
      one reads it and returns the same user, writing nothing. */
  method LoginTwice(u: AuthUser, email: string, password: string, profiles: map<string, Profile>)
    returns (first: AuthResult, second: AuthResult, after: map<string, Profile>)
    ensures ProvisionedFrom(profiles, after, u)
    ensures first.SignedIn? && second == first
    ensures u.id in after && after[u.id] == (if u.id in profiles then profiles[u.id] else FreeProfile(u))
  {
    var middle;
    first, middle := LoginUser(email, password, AuthOk(Some(u)), profiles, false, None);
    second, after := LoginUser(email, password, AuthOk(Some(u)), middle, false, None);
  }

  /** Registration either writes the user's free profile or nothing. */
  method RegisterProvisions(email: string, password: string, name: Option<string>, u: AuthUser,
                            profiles: map<string, Profile>, storeError: Option<string>)
    returns (result: AuthResult, after: map<string, Profile>)
    ensures ProvisionedFrom(profiles, after, u)
    ensures result.SignedIn? <==> after != profiles
    ensures result.SignedIn? ==> result.user.plan == "free" && result.user.credits == 30 && after[u.id] == FreeProfile(u)
  {
    var request;
    result, request, after := RegisterUser(email, password, name, AuthOk(Some(u)), profiles, storeError);
    if result.SignedIn? {
      assert after[u.id] == FreeProfile(u);
      assert u.id !in profiles;
    }
  }
}
