/** A session's role list as a search index: `normalizedRoles` builds it, `HasRole` searches it. */
module RoleIndex {
  import opened Text
  import opened Sorting

  /** The distinct roles that are not empty, in order. */
  function NormalRoles(roles: seq<string>): seq<string> {
    SortUnique(Without(roles, ""))
  }

  /** Collects the roles in a map, lists the map's keys in map order and sorts them. */
  method NormalizedRoles(roles: seq<string>) returns (result: seq<string>)
    ensures result == NormalRoles(roles)
  {
    var unique: set<string> := {};
    for i := 0 to |roles|
      invariant unique == Elements(roles[..i]) - {""}
    {
      if roles[i] != "" {
        unique := unique + {roles[i]};
      }
      assert roles[..i + 1] == roles[..i] + [roles[i]];
    }
    assert roles[..|roles|] == roles;
    result := SortedKeys(unique);
    SortedUnique(result, NormalRoles(roles));
  }

  /** `sort.SearchStrings` on `a[i..j]`: the first index whose string is not before `x`. */
  function Search(a: seq<string>, x: string, i: nat, j: nat): nat
    requires i <= j <= |a|
    decreases j - i
  {
    if i == j then i
    else
      var h := (i + j) / 2;
      if Less(a[h], x) then Search(a, x, h + 1, j) else Search(a, x, i, h)
  }

  predicate HasRole(roles: seq<string>, role: string) {
    var index := Search(roles, role, 0, |roles|);
    index < |roles| && roles[index] == role
  }

  lemma {:induction false} SearchFindsBoundary(a: seq<string>, x: string, i: nat, j: nat)
    requires StrictlySorted(a) && i <= j <= |a|
    requires forall k | 0 <= k < i :: Less(a[k], x)
    requires forall k | j <= k < |a| :: !Less(a[k], x)
    ensures i <= Search(a, x, i, j) <= j
    ensures forall k | 0 <= k < Search(a, x, i, j) :: Less(a[k], x)
    ensures forall k | Search(a, x, i, j) <= k < |a| :: !Less(a[k], x)
    decreases j - i
  {
    if i < j {
      var h := (i + j) / 2;
      if Less(a[h], x) {
        forall k | 0 <= k < h + 1 ensures Less(a[k], x) {
          if k < h {
            LessTransitive(a[k], a[h], x);
          }
        }
        SearchFindsBoundary(a, x, h + 1, j);
      } else {
        forall k | h <= k < |a| ensures !Less(a[k], x) {
          if h < k && Less(a[k], x) {
            LessTransitive(a[h], a[k], x);
          }
        }
        SearchFindsBoundary(a, x, i, h);
      }
    }
  }

  lemma SearchIsMembership(roles: seq<string>, role: string)
    requires StrictlySorted(roles)
    ensures HasRole(roles, role) <==> role in roles
  {
    SearchFindsBoundary(roles, role, 0, |roles|);
    FoundAtBoundary(roles, role, Search(roles, role, 0, |roles|));
  }

  lemma FoundAtBoundary(roles: seq<string>, role: string, index: nat)
    requires index <= |roles|
    requires forall k | 0 <= k < index :: Less(roles[k], role)
    requires StrictlySorted(roles[index..]) && forall k | index <= k < |roles| :: !Less(roles[k], role)
    ensures role in roles <==> index < |roles| && roles[index] == role
  {
    LessIrreflexive(role);
    forall k | index < k < |roles| ensures roles[k] != role {
      assert Less(roles[index..][0], roles[index..][k - index]);
    }
  }

  /** The search answers true exactly for the roles that are not empty and were in the verified
      identity. */
  lemma HasRoleExactly(identityRoles: seq<string>, role: string)
    ensures HasRole(NormalRoles(identityRoles), role) <==> role != "" && role in identityRoles
  {
    var roles := NormalRoles(identityRoles);
    SearchIsMembership(roles, role);
    assert role in roles <==> role in Elements(roles);
    assert role in identityRoles <==> role in Elements(identityRoles);
  }
}
