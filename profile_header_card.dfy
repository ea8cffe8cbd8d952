/** The profile header of the settings page: avatar initials, display name,
    the two-factor badge and the optional edit button. Props the parent
    leaves out are `None`. */
module ProfileHeaderCard {
  import opened Wrappers
  import opened Text

  const DefaultJoinDate: string := "March 2023"
  const UnknownInitials: string := "??"
  const AnonymousName: string := "User"

  /** `initials`: "??" for a missing or empty email (both falsy); otherwise
      the first two characters, or fewer for a shorter email, upper-cased. */
  function Initials(email: Option<string>): (r: string)
    ensures email.None? || email.value == "" ==> r == UnknownInitials
    ensures email.Some? && email.value != "" ==>
      && |r| == (if |email.value| < 2 then |email.value| else 2)
      && forall i :: 0 <= i < |r| ==> r[i] == UpperChar(email.value[i])
  {
    if email.None? || email.value == "" then UnknownInitials
    else ToUpper(email.value[..if |email.value| < 2 then |email.value| else 2])
  }

  /** Initials of a real email never contain an ASCII lower-case letter and
      have one or two characters. */
  lemma InitialsAreUpperCase(email: string)
    requires email != ""
    ensures 1 <= |Initials(Some(email))| <= 2
    ensures forall i :: 0 <= i < |Initials(Some(email))| ==> !IsAsciiLower(Initials(Some(email))[i])
  {
  }

  /** `displayName`: the part of the email before the first '@' (all of it
      when there is none), or "User" when there is no email. */
  function DisplayName(email: Option<string>): (r: string)
    ensures email.None? ==> r == AnonymousName
    ensures email.Some? ==> '@' !in r && StartsWith(email.value, r)
    ensures email.Some? && '@' !in email.value ==> r == email.value
    ensures email.Some? && '@' in email.value ==> |r| < |email.value| && email.value[|r|] == '@'
  {
    match email
    case None => AnonymousName
    case Some(e) => BeforeFirst(e, '@')
  }

  /** The local part of an address is its name; an empty email gives an
      empty name rather than "User". */
  lemma DisplayNameOfAddress(local: string, domain: string)
    requires '@' !in local
    ensures DisplayName(Some(local + "@" + domain)) == local
    ensures DisplayName(Some("")) == ""
  {
    BeforeFirstOfJoin(local, '@', domain);
  }

  datatype Badge = Badge(text: string, enabled: bool)

  /** The security badge: only when the flag is given at all. */
  function SecurityBadge(isTwoFactorEnabled: Option<bool>): (r: Option<Badge>)
    ensures r.Some? <==> isTwoFactorEnabled.Some?
    ensures r.Some? ==> r.value.enabled == isTwoFactorEnabled.value
    ensures r.Some? ==> (r.value.text == "2FA Enabled" <==> isTwoFactorEnabled.value)
    ensures r.Some? ==> (r.value.text == "2FA Disabled" <==> !isTwoFactorEnabled.value)
  {
    match isTwoFactorEnabled
    case None => None
    case Some(true) => Some(Badge("2FA Enabled", true))
    case Some(false) => Some(Badge("2FA Disabled", false))
  }

  /** What the card shows. */
  datatype Card = Card(
    initials: string,
    displayName: string,
    avatarSrc: string,
    avatarAlt: string,
    joinDate: string,
    badge: Option<Badge>,
    editButton: bool)

  /** The rendered card; `hasEditHandler` says whether `onEditClick` was passed. */
  function Render(email: Option<string>, picture: Option<string>, joinDate: Option<string>,
                  isTwoFactorEnabled: Option<bool>, hasEditHandler: bool): (r: Card)
    ensures r.editButton <==> hasEditHandler
    ensures r.joinDate == if joinDate.Some? then joinDate.value else DefaultJoinDate
    ensures r.avatarSrc == if picture.Some? then picture.value else ""
    ensures r.avatarAlt == if email.Some? then email.value else ""
    ensures r.badge.Some? <==> isTwoFactorEnabled.Some?
    ensures r.initials == Initials(email) && r.displayName == DisplayName(email)
  {
    Card(Initials(email), DisplayName(email), picture.GetOr(""), email.GetOr(""),
         joinDate.GetOr(DefaultJoinDate), SecurityBadge(isTwoFactorEnabled), hasEditHandler)
  }
}
