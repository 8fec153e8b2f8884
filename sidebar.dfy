/** The sidebar: which navigation entry is highlighted for the current path, and the name shown
    for the signed-in user. */
module Sidebar {
  import opened Wrappers
  import opened Strings

  datatype NavItem = NavItem(name: string, href: string)

  const Navigation: seq<NavItem> := [
    NavItem("Templates", "/"),
    NavItem("Campaigns", "/campaigns"),
    NavItem("Messages", "/messages"),
    NavItem("Prompts", "/prompts")
  ]

  /** `isActive`: the path equals the link, or, except for the root link, starts with it. */
  predicate IsActive(pathname: string, href: string) {
    pathname == href || (href != "/" && href <= pathname)
  }

  /** The root entry is highlighted on the root path only. */
  lemma RootOnlyOnRoot(pathname: string)
    ensures IsActive(pathname, "/") <==> pathname == "/"
  {
  }

  /** Any other entry is highlighted exactly on the paths it is a plain prefix of, so
      `/campaignsX` highlights Campaigns too. */
  lemma OtherEntriesByPrefix(pathname: string, href: string)
    requires href != "/"
    ensures IsActive(pathname, href) <==> href <= pathname
  {
  }

  lemma PlainPrefixExample()
    ensures IsActive("/campaignsX", "/campaigns")
    ensures IsActive("/campaigns/new", "/campaigns")
    ensures !IsActive("/campaigns", "/")
  {
    assert "/campaignsX"[..|"/campaigns"|] == "/campaigns";
    assert "/campaigns/new"[..|"/campaigns"|] == "/campaigns";
  }

  /** Whatever the path, at most one entry of the sidebar is highlighted. */
  lemma AtMostOneActive(pathname: string, i: nat, j: nat)
    requires i < |Navigation| && j < |Navigation|
    requires IsActive(pathname, Navigation[i].href) && IsActive(pathname, Navigation[j].href)
    ensures i == j
  {
    if i != 0 && j != 0 {
      PrefixesAgree(pathname, Navigation[i].href, Navigation[j].href);
    }
  }

  /** Two prefixes of one path agree on their common positions. */
  lemma PrefixesAgree(pathname: string, a: string, b: string)
    requires a <= pathname && b <= pathname && |a| >= 2 && |b| >= 2
    ensures a[1] == b[1]
  {
    assert a[1] == pathname[1];
  }

  /** The signed-in user as the sidebar reads it; a missing `user_metadata` has no names. */
  datatype User = User(email: Option<string>, full_name: Option<string>, first_name: Option<string>)

  /** `getUserDisplayName`. */
  function UserDisplayName(user: Option<User>): (name: string)
    ensures user.None? || !Truthy(user.value.email) ==> name == "User"
    ensures user.Some? && Truthy(user.value.email) && Truthy(user.value.full_name) ==>
      name == user.value.full_name.value
    ensures (user.Some? && Truthy(user.value.email) && !Truthy(user.value.full_name) &&
             Truthy(user.value.first_name)) ==> name == user.value.first_name.value
    ensures (user.Some? && Truthy(user.value.email) && !Truthy(user.value.full_name) &&
             !Truthy(user.value.first_name)) ==> name == SplitOn(user.value.email.value, '@')[0]
  {
    if user.None? || !Truthy(user.value.email) then "User"
    else if Truthy(user.value.full_name) then user.value.full_name.value
    else if Truthy(user.value.first_name) then user.value.first_name.value
    else SplitOn(user.value.email.value, '@')[0]
  }

  /** Without names, the user is called by the part of the address before the first `'@'`. */
  lemma NameFromAddress(local: string, domain: string)
    requires '@' !in local
    ensures UserDisplayName(Some(User(Some(local + "@" + domain), None, None))) ==
      if local == "" then "" else local
  {
    FirstPartBeforeSeparator(local, domain, '@');
    assert local + "@" + domain == local + ['@'] + domain;
  }
}
