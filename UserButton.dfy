/** The header's user button: the same avatar fallback without a final
    default, and the logout link. */
module UserButton {
  import opened Prelude
  import opened UserInfoCard

  /** What `getAvatarFallback` yields here: a string, `undefined` (for an
      empty name, `''[0]`), or a `TypeError` (for a missing name). */
  datatype Fallback = Text(s: string) | Undefined | TypeError

  function AvatarFallback(user: UserClaims): Fallback {
    if Truthy(user.givenName) && Truthy(user.familyName) then Text([user.givenName.value[0], user.familyName.value[0]])
    else if Truthy(user.nickname) then Text([user.nickname.value[0]])
    else if user.name.None? then TypeError
    else if user.name.value == "" then Undefined
    else Text([user.name.value[0]])
  }

  /** Whenever it produces text, it produces what the profile card shows;
      it fails exactly when the card would fall back to 'U'. */
  lemma AgreesWithInfoCard(user: UserClaims)
    ensures AvatarFallback(user).Text? <==>
              (Truthy(user.givenName) && Truthy(user.familyName)) || Truthy(user.nickname) || Truthy(user.name)
    ensures AvatarFallback(user).Text? ==> AvatarFallback(user).s == UserInfoCard.AvatarFallback(user)
    ensures !AvatarFallback(user).Text? ==> UserInfoCard.AvatarFallback(user) == "U"
    ensures AvatarFallback(user) == TypeError <==>
              !(Truthy(user.givenName) && Truthy(user.familyName)) && !Truthy(user.nickname) && user.name.None?
  {
  }

  /** `logoutUrl = '/api/auth/logout'`: the link target. */
  function LogoutHref(logoutUrl: Option<string>): (r: string)
    ensures logoutUrl.None? ==> r == "/api/auth/logout"
    ensures logoutUrl.Some? ==> r == logoutUrl.value
  {
    Default(logoutUrl, "/api/auth/logout")
  }
}
