/** The profile card's text fallbacks: the avatar initials shown when there
    is no picture, the date shown when a date is missing, and the heading. */
module UserInfoCard {
  import opened Prelude

  /** The user claims the fallbacks read; any of them may be missing. */
  datatype UserClaims = UserClaims(givenName: Option<string>, familyName: Option<string>,
                                   nickname: Option<string>, name: Option<string>)

  /** `getAvatarFallback`: initials of given and family name, else the
      first letter of the nickname, else of the name, else 'U'. */
  function AvatarFallback(user: UserClaims): (r: string)
    ensures 1 <= |r| <= 2
  {
    if Truthy(user.givenName) && Truthy(user.familyName) then [user.givenName.value[0], user.familyName.value[0]]
    else if Truthy(user.nickname) then [user.nickname.value[0]]
    else if Truthy(user.name) then [user.name.value[0]]
    else "U"
  }

  /** Which claim the initials come from, branch by branch. */
  lemma AvatarFallbackCases(user: UserClaims)
    ensures Truthy(user.givenName) && Truthy(user.familyName) ==>
              AvatarFallback(user) == [user.givenName.value[0], user.familyName.value[0]]
    ensures !(Truthy(user.givenName) && Truthy(user.familyName)) && Truthy(user.nickname) ==>
              AvatarFallback(user) == [user.nickname.value[0]]
    ensures !(Truthy(user.givenName) && Truthy(user.familyName)) && !Truthy(user.nickname) ==>
              AvatarFallback(user) == (if Truthy(user.name) then [user.name.value[0]] else "U")
  {
  }

  /** `formatDate`: 'N/A' for a missing or empty date, and when the locale
      formatter (a parameter; `None` when it throws) fails. */
  function FormatDate(dateString: Option<string>, toLocaleDate: string -> Option<string>): (r: string)
    ensures !Truthy(dateString) ==> r == "N/A"
    ensures Truthy(dateString) && toLocaleDate(dateString.value).Some? ==> r == toLocaleDate(dateString.value).value
    ensures Truthy(dateString) && toLocaleDate(dateString.value).None? ==> r == "N/A"
  {
    if !Truthy(dateString) then "N/A"
    else
      var formatted := toLocaleDate(dateString.value);
      if formatted.Some? then formatted.value else "N/A"
  }

  /** The heading: `user.name || user.nickname || 'User'`. */
  function DisplayName(user: UserClaims): (r: string)
    ensures r != ""
    ensures Truthy(user.name) ==> r == user.name.value
    ensures !Truthy(user.name) && Truthy(user.nickname) ==> r == user.nickname.value
    ensures !Truthy(user.name) && !Truthy(user.nickname) ==> r == "User"
  {
    Or(user.name, Or(user.nickname, "User"))
  }
}
