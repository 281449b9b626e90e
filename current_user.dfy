/**
 * The signed-in user as the screens see it (hooks/useCurrentUser.ts),
 * derived from the identity provider's user with fallbacks for a missing
 * username and display name.
 */
module CurrentUserHook {
  import opened Wrappers
  import opened Records
  import opened Text

  /** The username used when neither the account nor its metadata has one. */
  const FallbackUsername: string := "usuário"

  /**
   * `currentUser`: nothing until the provider has loaded a user; otherwise
   * the id, the first non-empty of account username, metadata username and
   * "usuário", the trimmed full name or else the username, and the picture
   * or `null`.
   */
  function DeriveCurrentUser(isLoaded: bool, user: Option<ProviderUser>): (r: Option<CurrentUser>)
    ensures r.None? <==> !isLoaded || user.None?
    ensures r.Some? ==> r.value.id == user.value.id && r.value.avatar == user.value.imageUrl
    ensures r.Some? ==> r.value.username != []
    ensures r.Some? && Truthy(user.value.username) ==> r.value.username == user.value.username.value
    ensures r.Some? && !Truthy(user.value.username) && Truthy(user.value.metadataUsername) ==>
      r.value.username == user.value.metadataUsername.value
    ensures r.Some? && !Truthy(user.value.username) && !Truthy(user.value.metadataUsername) ==>
      r.value.username == FallbackUsername
    ensures r.Some? ==>
      var full := Trim(Or(user.value.firstName, "") + " " + Or(user.value.lastName, ""));
      r.value.displayName == (if full != [] then full else r.value.username)
    ensures r.Some? ==> r.value.displayName != []
  {
    if !isLoaded || user.None? then None
    else
      var u := user.value;
      var username := Or(u.username, Or(u.metadataUsername, FallbackUsername));
      var full := Trim(Or(u.firstName, "") + " " + Or(u.lastName, ""));
      var displayName := if full != [] then full else username;
      Some(CurrentUser(u.id, username, displayName, u.imageUrl))
  }

  /**
   * For names that need no trimming, the display name is the names joined by
   * a space, just one of them, or the username when both are missing.
   */
  lemma DisplayNameOfTrimmedNames(user: ProviderUser)
    requires IsTrimmed(Or(user.firstName, "")) && IsTrimmed(Or(user.lastName, ""))
    ensures var f, l := Or(user.firstName, ""), Or(user.lastName, "");
            var r := DeriveCurrentUser(true, Some(user)).value;
            r.displayName == if f == [] && l == [] then r.username
                             else if f == [] then l else if l == [] then f else f + " " + l
  {
    TrimJoin(Or(user.firstName, ""), Or(user.lastName, ""));
  }
}
