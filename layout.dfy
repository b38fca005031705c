/**
 * The application shell (components/Layout.tsx): which navigation items a
 * user sees, which of them is highlighted for the current path, and the
 * host/vendor switch button.
 */
module Layout {
  import opened Wrappers
  import opened Strings
  import opened Types
  import opened Localization
  import opened AuthContext

  /** A link label: a translation key, or a fixed text. */
  datatype NavLabel = Translated(key: string) | Fixed(text: string)

  /** A navigation link: its label and its path. */
  datatype NavItem = NavItem(caption: NavLabel, path: string)

  /** The text shown for a label in a language (`t(key, language)`, which may be undefined). */
  function LabelText(l: NavLabel, lang: Language): Option<string> {
    match l
    case Translated(key) => T(key, lang)
    case Fixed(text) => Some(text)
  }

  const HOST_NAV_ITEMS := [
    NavItem(Translated("dashboard"), "/"), NavItem(Translated("events"), "/events"),
    NavItem(Translated("marketplace"), "/vendors"), NavItem(Translated("community"), "/community")]

  const VENDOR_NAV_ITEMS := [
    NavItem(Fixed("Vendor Hub"), "/vendor-onboarding"),
    NavItem(Translated("marketplace"), "/vendors"), NavItem(Translated("community"), "/community")]

  predicate IsVendor(user: Option<User>) {
    user.Some? && user.value.role == VendorRole
  }

  /** `navItems`: the vendor links for a vendor, the host links for anyone else, logged-out included. */
  function NavItems(user: Option<User>): (r: seq<NavItem>)
    ensures |r| == 3 <==> IsVendor(user)
    ensures |r| == 4 <==> !IsVendor(user)
    ensures (exists i :: 0 <= i < |r| && r[i].path == "/") <==> !IsVendor(user)
    ensures r == VENDOR_NAV_ITEMS <==> IsVendor(user)
    ensures r == HOST_NAV_ITEMS <==> !IsVendor(user)
  {
    if IsVendor(user) then
      var r := VENDOR_NAV_ITEMS;
      assert |r[0].path| > 1 && |r[1].path| > 1 && |r[2].path| > 1;
      r
    else
      var r := HOST_NAV_ITEMS;
      assert r[0].path == "/";
      r
  }

  /** Every translated label is a key of the tables, so in every language each link has its text. */
  lemma LabelsAreTranslated(lang: Language)
    ensures forall i :: 0 <= i < |HOST_NAV_ITEMS| ==> LabelText(HOST_NAV_ITEMS[i].caption, lang).Some?
    ensures forall i :: 0 <= i < |VENDOR_NAV_ITEMS| ==> LabelText(VENDOR_NAV_ITEMS[i].caption, lang).Some?
  {
    TablesAgreeOnKeys();
    assert KEYS[0] == "dashboard" && KEYS[1] == "marketplace" && KEYS[2] == "events" && KEYS[3] == "community";
  }

  /** The highlight test: an exact match, or a path prefix for every link but the root. */
  predicate IsActive(pathname: string, itemPath: string) {
    pathname == itemPath || (itemPath != "/" && StartsWith(pathname, itemPath))
  }

  /** The root link is highlighted on the root path only; the others also on their sub-paths. */
  lemma ActiveExamples()
    ensures forall p :: IsActive(p, "/") <==> p == "/"
    ensures IsActive("/events/e1", "/events") && !IsActive("/events/e1", "/")
  {
    assert "/events/e1"[..|"/events"|] == "/events";
  }

  /** Two distinct paths can both be highlighted only if one is a proper prefix of the other and not the root. */
  lemma BothActiveMeansPrefix(p: string, a: string, b: string)
    requires IsActive(p, a) && IsActive(p, b) && |a| <= |b| && a != b
    ensures a != "/" && StartsWith(b, a)
  {
    assert b[..|a|] == p[..|b|][..|a|];
  }

  /** No link's path but the root's is a prefix of another link's path. */
  predicate PrefixFree(items: seq<NavItem>) {
    forall i, j :: 0 <= i < |items| && 0 <= j < |items| && i != j && items[i].path != "/" ==>
      !StartsWith(items[j].path, items[i].path)
  }

  /** Two strings that differ at a common position are not prefixes of each other. */
  lemma Diverge(a: string, b: string, k: nat)
    requires k < |a| && k < |b| && a[k] != b[k]
    ensures !StartsWith(a, b) && !StartsWith(b, a)
  {
    assert |b| <= |a| ==> a[..|b|][k] != b[k];
    assert |a| <= |b| ==> b[..|a|][k] != a[k];
  }

  lemma HostNavPrefixFree()
    ensures PrefixFree(HOST_NAV_ITEMS)
  {
    var ps := ["/", "/events", "/vendors", "/community"];
    assert forall i :: 0 <= i < 4 ==> HOST_NAV_ITEMS[i].path == ps[i];
    Diverge("/events", "/vendors", 1);
    Diverge("/events", "/community", 1);
    Diverge("/vendors", "/community", 1);
  }

  lemma VendorNavPrefixFree()
    ensures PrefixFree(VENDOR_NAV_ITEMS)
  {
    var ps := ["/vendor-onboarding", "/vendors", "/community"];
    assert forall i :: 0 <= i < 3 ==> VENDOR_NAV_ITEMS[i].path == ps[i];
    Diverge("/vendor-onboarding", "/vendors", 7);
    Diverge("/vendor-onboarding", "/community", 1);
    Diverge("/vendors", "/community", 1);
  }

  lemma NavItemsPrefixFree(user: Option<User>)
    ensures PrefixFree(NavItems(user))
  {
    HostNavPrefixFree();
    VendorNavPrefixFree();
  }

  /** At most one navigation link is highlighted, whatever the role and the path. */
  lemma AtMostOneActive(user: Option<User>, p: string)
    ensures var items := NavItems(user);
      forall i, j :: 0 <= i < j < |items| && IsActive(p, items[i].path) ==> !IsActive(p, items[j].path)
  {
    var items := NavItems(user);
    NavItemsPrefixFree(user);
    forall i, j | 0 <= i < j < |items| && IsActive(p, items[i].path)
      ensures !IsActive(p, items[j].path)
    {
      var a, b := items[i].path, items[j].path;
      if IsActive(p, b) {
        if |a| <= |b| {
          BothActiveMeansPrefix(p, a, b);
        } else {
          BothActiveMeansPrefix(p, b, a);
        }
      }
    }
  }

  /** The role the switch button logs in as: a host switches to vendor, anyone else to host. */
  function SwitchTarget(user: Option<User>): (r: UserRole)
    ensures r == VendorRole <==> user.Some? && user.value.role == Host
    ensures r != Admin
  {
    if user.Some? && user.value.role == Host then VendorRole else Host
  }

  /** Switching twice from the host user returns to the host user; from the vendor user likewise. */
  lemma SwitchTwice()
    ensures LoginUser(SwitchTarget(Some(LoginUser(SwitchTarget(Some(MOCK_HOST_USER)))))) == MOCK_HOST_USER
    ensures LoginUser(SwitchTarget(Some(MOCK_VENDOR_USER))) == MOCK_HOST_USER
    ensures LoginUser(SwitchTarget(None)) == MOCK_HOST_USER
  {
  }
}
