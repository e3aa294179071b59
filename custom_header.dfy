/** The top bar (components/ui/CustomHeader.tsx): the navigation items, which
    of them is active for the current route, and the viewer's avatar. Route
    changes themselves are not modelled. */
module CustomHeader {
  import opened Wrappers
  import opened Text
  import opened Schema
  import opened Initials

  const ProfileHref: string := "/(tabs)/profile"
  const FeedHref: string := "/(tabs)/feed"
  const FinancialsHref: string := "/(tabs)/financials"

  /** The routes of `NAV_ITEMS`, in order (icons and labels are not modelled). */
  const NavHrefs: seq<string> := [ProfileHref, FeedHref, FinancialsHref]

  /** `pathname === item.href`. */
  predicate IsActive(pathname: string, i: nat)
    requires i < |NavHrefs|
  {
    pathname == NavHrefs[i]
  }

  /** The three routes are different strings. */
  lemma NavHrefsDistinct()
    ensures forall i, j :: 0 <= i < j < |NavHrefs| ==> NavHrefs[i] != NavHrefs[j]
  {
    assert ProfileHref[8] == 'p' && FeedHref[8] == 'f' && FinancialsHref[8] == 'f';
    assert FeedHref[9] == 'e' && FinancialsHref[9] == 'i';
  }

  /** The active navigation item: the one whose route is the current path,
      if any. */
  function ActiveItem(pathname: string): (r: Option<nat>)
    ensures r.Some? ==> r.value < |NavHrefs| && IsActive(pathname, r.value)
    ensures r.None? ==> forall i :: 0 <= i < |NavHrefs| ==> !IsActive(pathname, i)
  {
    if pathname == ProfileHref then Some(0)
    else if pathname == FeedHref then Some(1)
    else if pathname == FinancialsHref then Some(2)
    else None
  }

  /** At most one item is active: any active item is the one `ActiveItem` names. */
  lemma AtMostOneActive(pathname: string, i: nat)
    requires i < |NavHrefs| && IsActive(pathname, i)
    ensures ActiveItem(pathname) == Some(i)
  {
    NavHrefsDistinct();
  }

  /** The avatar's highlight (ring, dark initials and dot) is on exactly when
      the profile item is the active one. */
  predicate AvatarHighlighted(pathname: string) {
    pathname == ProfileHref
  }

  lemma HighlightFollowsProfileItem(pathname: string)
    ensures AvatarHighlighted(pathname) <==> ActiveItem(pathname) == Some(0)
  {
    NavHrefsDistinct();
  }

  /** The header's `getInitials`: "?" without a profile or with an empty
      name; otherwise the initials of the profile name. */
  function HeaderInitials(profile: Option<Profile>): (r: string)
    requires profile.None? || Drawable(profile.value.name)
    ensures profile.None? ==> r == "?"
    ensures profile.Some? && |profile.value.name| == 0 ==> r == "?"
    ensures profile.Some? && |profile.value.name| > 0 ==> 1 <= |r| <= 2
  {
    if profile.None? || |profile.value.name| == 0 then "?" else GetInitials(profile.value.name)
  }

  /** The header's initials agree with those the comment list and the post
      card compute from `name || ''`. */
  lemma HeaderInitialsAgree(profile: Option<Profile>)
    requires profile.None? || Drawable(profile.value.name)
    ensures HeaderInitials(profile) == GetInitials(if profile.Some? then profile.value.name else "")
  {
  }

  /** The header avatar: the profile picture when there is one, otherwise
      the initials. */
  function HeaderAvatar(profile: Option<Profile>): (r: Avatar)
    requires profile.None? || Truthy(profile.value.avatarUrl) || Drawable(profile.value.name)
    ensures r.Picture? <==> profile.Some? && Truthy(profile.value.avatarUrl)
    ensures r.Picture? ==> r.url == profile.value.avatarUrl.value
    ensures r.Letters? ==> r.text == HeaderInitials(profile)
  {
    if profile.Some? && Truthy(profile.value.avatarUrl) then Picture(profile.value.avatarUrl.value)
    else Letters(HeaderInitials(profile))
  }
}
