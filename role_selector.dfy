/** The logic of `client/src/components/role-selector.tsx`: changing the role, the
    badge shown for the current role, and the menu items' highlight and test ids. */
module RoleSelector {
  import opened Text
  import opened Query
  import opened UserRoleContext

  /** `handleRoleChange`: set the role, then invalidate every cached query. */
  method HandleRoleChange(provider: UserRoleProvider, client: QueryClient, newRole: string)
    requires provider.Valid() && newRole in provider.roles
    modifies provider, client
    ensures provider.Valid() && provider.role == newRole
    ensures provider.storage == old(provider.storage)[StorageKey := newRole]
    ensures client.invalidations == old(client.invalidations) + [AllQueries]
    ensures client.requests == old(client.requests)
  {
    provider.SetRole(newRole);
    client.InvalidateQueries(AllQueries);
  }

  datatype BadgeVariant = Default | Secondary | Outline

  /** `getRoleBadgeVariant`: the badge tells the capability flags apart: the filled badge marks exactly the
      administrator, the secondary one exactly the manager, and the outlined one
      exactly the roles that cannot view revenue. */
  function RoleBadgeVariant(role: string): (v: BadgeVariant)
    ensures v == Default <==> IsAdmin(role)
    ensures v == Secondary <==> IsManager(role)
    ensures v == Outline <==> !CanViewRevenue(role)
  {
    match role
    case "Admin" => Default
    case "Manager" => Secondary
    case _ => Outline
  }

  const HighlightClass: string := "bg-accent"

  /** The class name of the menu item for `item` while `current` is the role. */
  function ItemClass(current: string, item: string): (c: string)
    ensures c == HighlightClass <==> item == current
    ensures item != current ==> c == ""
  {
    if current == item then HighlightClass else ""
  }

  /** The menu items, in menu order, that carry the highlight class. */
  function Highlighted(current: string, items: seq<string>): (r: seq<string>)
    ensures forall i :: 0 <= i < |r| ==> r[i] == current
  {
    if items == [] then []
    else (if ItemClass(current, items[0]) == HighlightClass then [items[0]] else [])
         + Highlighted(current, items[1..])
  }

  predicate NoDuplicates(s: seq<string>)
  {
    forall i, j :: 0 <= i < j < |s| ==> s[i] != s[j]
  }

  /** With distinct roles in the menu, exactly one item is highlighted: the current role. */
  lemma {:induction false} ExactlyOneHighlighted(current: string, items: seq<string>)
    requires NoDuplicates(items) && current in items
    ensures Highlighted(current, items) == [current]
  {
    if items[0] == current {
      NoneHighlighted(current, items[1..]);
    } else {
      ExactlyOneHighlighted(current, items[1..]);
    }
  }

  lemma {:induction false} NoneHighlighted(current: string, items: seq<string>)
    requires current !in items
    ensures Highlighted(current, items) == []
  {
    if items != [] {
      NoneHighlighted(current, items[1..]);
    }
  }

  const TestIdPrefix: string := "menu-role-"

  /** The `data-testid` of a menu item: `menu-role-` and the lower-cased role whose
      first space, and only that one, has become a hyphen. */
  function TestId(role: string): (r: string)
    ensures |r| == |TestIdPrefix| + |role| && r[..|TestIdPrefix|] == TestIdPrefix
    ensures forall i :: 0 <= i < |role| ==>
              r[|TestIdPrefix| + i] == (if role[i] == ' ' && ' ' !in role[..i] then '-' else LowerChar(role[i]))
  {
    var low := Lower(role);
    LowerKeepsSpaces(role);
    TestIdPrefix + ReplaceFirst(low, ' ', '-')
  }

  /** Lower-casing neither adds nor removes spaces before any position. */
  lemma LowerKeepsSpaces(s: string)
    ensures forall i :: 0 <= i <= |s| ==> (' ' in Lower(s)[..i] <==> ' ' in s[..i])
  {
    forall i | 0 <= i <= |s| ensures ' ' in Lower(s)[..i] <==> ' ' in s[..i] {
      if ' ' in Lower(s)[..i] {
        var k :| 0 <= k < i && Lower(s)[k] == ' ';
        assert s[..i][k] == ' ';
      }
      if ' ' in s[..i] {
        var k :| 0 <= k < i && s[k] == ' ';
        assert Lower(s)[..i][k] == ' ';
      }
    }
  }

  lemma TestIdOfAdmin()
    ensures TestId("Admin") == "menu-role-admin"
  {
    var r := TestId("Admin");
    assert r[10] == 'a' && r[11] == 'd' && r[12] == 'm' && r[13] == 'i' && r[14] == 'n';
    assert r == r[..10] + r[10..];
  }

  /** Only the first space becomes a hyphen: any later space survives into the test id. */
  lemma TestIdKeepsLaterSpaces(role: string, j: nat, k: nat)
    requires j < k < |role| && role[j] == ' ' && role[k] == ' '
    ensures TestId(role)[|TestIdPrefix| + k] == ' '
  {
    assert role[..k][j] == ' ';
  }
}
