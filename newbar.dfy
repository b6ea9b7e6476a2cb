/** The top navigation bar: which link is active, the avatar's initials,
    the side drawer, and logging out. */
module Newbar {
  import opened Wrappers
  import opened Lists
  import opened Text
  import opened UserStore

  datatype NavLink = NavLink(title: string, endpoint: string)

  function EndpointIs(pathname: string): NavLink -> bool {
    (l: NavLink) => l.endpoint == pathname
  }

  /** `findActiveIndex`: the first link whose endpoint is the current path, or `-1`. */
  function FindActiveIndex(links: seq<NavLink>, pathname: string): (i: int)
    ensures -1 <= i < |links|
    ensures i == -1 <==> forall j :: 0 <= j < |links| ==> links[j].endpoint != pathname
    ensures 0 <= i ==> links[i].endpoint == pathname && forall j :: 0 <= j < i ==> links[j].endpoint != pathname
  {
    FirstIndex(links, EndpointIs(pathname))
  }

  /** Whether a link's path is the current location: an exact match, so a
      path that is only a prefix of the location is not active. */
  predicate IsActive(pathname: string, path: string): (r: bool)
    ensures r ==> |path| == |pathname|
    ensures path != pathname && StartsWith(pathname, path) ==> !r
  {
    pathname == path
  }

  /** The active index names a link that `isActive` marks, and no link is marked when it is `-1`. */
  lemma ActiveIndexAgreesWithIsActive(links: seq<NavLink>, pathname: string)
    ensures FindActiveIndex(links, pathname) >= 0 ==> IsActive(pathname, links[FindActiveIndex(links, pathname)].endpoint)
    ensures FindActiveIndex(links, pathname) == -1 <==> forall j :: 0 <= j < |links| ==> !IsActive(pathname, links[j].endpoint)
  {
  }

  /** `getInitials`: both first letters upper-cased, or `""` unless both names are present. */
  function GetInitials(user: Option<ClientUser>): (r: string)
    ensures r == "" <==> !(user.Some? && Truthy(user.value.firstName) && Truthy(user.value.lastName))
    ensures r != "" ==> r == [UpperChar(user.value.firstName.value[0]), UpperChar(user.value.lastName.value[0])]
  {
    if user.Some? && Truthy(user.value.firstName) && Truthy(user.value.lastName) then
      [UpperChar(user.value.firstName.value[0])] + [UpperChar(user.value.lastName.value[0])]
    else ""
  }

  const TokenKey := "CloudRoundsToken"
  const UserKey := "CloudRoundsUser"

  /** The storage with the two session keys removed. */
  function WithoutSessionKeys(items: map<string, string>): (r: map<string, string>)
    ensures TokenKey !in r && UserKey !in r
    ensures forall k :: k in items && k != TokenKey && k != UserKey ==> k in r && r[k] == items[k]
    ensures forall k :: k in r ==> k in items
  {
    items - {TokenKey, UserKey}
  }

  /** Removing the session keys a second time changes nothing. */
  lemma LogoutStorageIdempotent(items: map<string, string>)
    ensures WithoutSessionKeys(WithoutSessionKeys(items)) == WithoutSessionKeys(items)
  {
  }

  /** The browser's `localStorage`. */
  class LocalStorage {
    var items: map<string, string>

    constructor (items: map<string, string>)
      ensures this.items == items
    {
      this.items := items;
    }

    /** `removeItem`. */
    method RemoveItem(key: string)
      modifies this
      ensures items == old(items) - {key}
    {
      items := items - {key};
    }
  }

  /** `handleLogout`: clears the user and six lists in the store, drops the
      two session keys, and navigates to `/login`. The fetched permissions
      are left as they were. */
  method HandleLogout(store: Store, storage: LocalStorage) returns (target: string)
    modifies store, storage
    ensures store.user == None
    ensures store.articles == [] && store.submittedRequests == [] && store.feedbacks == []
    ensures store.purposes == [] && store.canRead == [] && store.canWrite == []
    ensures store.permissions == old(store.permissions)
    ensures storage.items == WithoutSessionKeys(old(storage.items))
    ensures target == "/login"
  {
    store.user := None;
    store.articles := [];
    store.submittedRequests := [];
    store.feedbacks := [];
    store.purposes := [];
    store.canRead := [];
    store.canWrite := [];
    storage.RemoveItem(TokenKey);
    storage.RemoveItem(UserKey);
    assert storage.items == old(storage.items) - {TokenKey} - {UserKey};
    target := "/login";
  }

  /** The bar's own state. */
  class Bar {
    const links: seq<NavLink>
    var activeIndex: int
    var drawerVisible: bool

    constructor (links: seq<NavLink>)
      ensures this.links == links && activeIndex == 0 && !drawerVisible
    {
      this.links := links;
      activeIndex, drawerVisible := 0, false;
    }

    /** The effect run when the location changes. */
    method SyncActiveIndex(pathname: string)
      modifies this`activeIndex
      ensures activeIndex == FindActiveIndex(links, pathname)
    {
      activeIndex := FindActiveIndex(links, pathname);
    }

    /** A click on the link at `index`. */
    method ClickLink(index: int)
      modifies this`activeIndex
      ensures activeIndex == index
    {
      activeIndex := index;
    }

    /** `handleNavCollapse`. */
    method HandleNavCollapse()
      modifies this`drawerVisible
      ensures drawerVisible == !old(drawerVisible)
    {
      drawerVisible := !drawerVisible;
    }
  }
}
