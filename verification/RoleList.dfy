/** A user's role list as the Go slice it is: a length over a backing array that assigning and
    revoking overwrite in place. */
module RoleList {
  import opened Text
  import opened Sorting

  /** A Go slice: a length over an array that other slices may share. */
  datatype Slice<T> = Slice(backing: array<T>, length: nat)

  ghost predicate InBounds<T>(slice: Slice<T>) {
    slice.length <= slice.backing.Length
  }

  function Contents<T>(slice: Slice<T>): seq<T>
    requires InBounds(slice)
    reads slice.backing
  {
    slice.backing[..slice.length]
  }

  /** Go's `append`: writes past the length while there is room, otherwise moves to a larger
      backing array. */
  method Append(slice: Slice<string>, x: string) returns (result: Slice<string>)
    requires InBounds(slice)
    modifies slice.backing
    ensures InBounds(result) && Contents(result) == old(Contents(slice)) + [x]
    ensures if slice.length < slice.backing.Length then result.backing == slice.backing else fresh(result.backing)
    ensures forall i | slice.length < i < slice.backing.Length :: slice.backing[i] == old(slice.backing[i])
  {
    if slice.length < slice.backing.Length {
      slice.backing[slice.length] := x;
      result := Slice(slice.backing, slice.length + 1);
    } else {
      var full := slice.backing;
      var grown := new string[2 * slice.length + 1](i => "");
      for i := 0 to slice.length
        invariant grown[..i] == full[..i]
        invariant full[..] == old(full[..])
      {
        grown[i] := full[i];
      }
      grown[slice.length] := x;
      result := Slice(grown, slice.length + 1);
    }
  }

  /** `sort.Strings` on distinct strings. */
  method SortInPlace(slice: Slice<string>)
    requires InBounds(slice)
    requires |Elements(Contents(slice))| == slice.length
    modifies slice.backing
    ensures Contents(slice) == SortUnique(old(Contents(slice)))
    ensures InPlace(slice, slice)
  {
    var sorted := SortUnique(slice.backing[..slice.length]);
    SortedSize(sorted);
    for i := 0 to slice.length
      invariant slice.backing[..i] == sorted[..i] && InPlace(slice, slice)
    {
      slice.backing[i] := sorted[i];
    }
    assert sorted[..slice.length] == sorted;
  }

  method Collect(slice: Slice<string>) returns (roles: set<string>)
    requires InBounds(slice)
    ensures roles == Elements(Contents(slice))
  {
    roles := {};
    for i := 0 to slice.length
      invariant roles == Elements(slice.backing[..i])
    {
      roles := roles + {slice.backing[i]};
      assert slice.backing[..i + 1] == slice.backing[..i] + [slice.backing[i]];
    }
  }

  lemma OneMore(s: seq<string>, x: string)
    requires x !in Elements(s)
    ensures Elements(s + [x]) == Elements(s) + {x} && |Elements(s + [x])| == |Elements(s)| + 1
  {
    assert Elements(s + [x]) == Elements(s) + {x};
  }

  /** The list still lies in the array it started in, and past its end that array is as it was. */
  twostate predicate InPlace(slice: Slice<string>, new result: Slice<string>)
    reads slice.backing
  {
    && result.backing == slice.backing && result.length <= slice.backing.Length
    && forall i | result.length <= i < slice.backing.Length :: slice.backing[i] == old(slice.backing[i])
  }

  /** Appends the members of a set in map order, which is any order. */
  method AppendAll(slice: Slice<string>, roles: set<string>) returns (result: Slice<string>)
    requires InBounds(slice) && slice.length == 0
    modifies slice.backing
    ensures InBounds(result)
    ensures if |roles| <= slice.backing.Length then InPlace(slice, result) else fresh(result.backing)
    ensures Elements(Contents(result)) == roles && |roles| == result.length
  {
    result := slice;
    var rest := roles;
    while rest != {}
      invariant InBounds(result)
      invariant InPlace(slice, result) || (fresh(result.backing) && result.length > slice.backing.Length)
      invariant Elements(Contents(result)) !! rest && Elements(Contents(result)) + rest == roles
      invariant |Elements(Contents(result))| == result.length
      decreases rest
    {
      var role :| role in rest;
      OneMore(Contents(result), role);
      result := Append(result, role);
      rest := rest - {role};
    }
    assert Elements(Contents(result)) == roles;
  }

  /** The in-place rewriting in `changeUserRole`: collect the roles in a set, change the set,
      truncate the slice, append the set's members, and sort. */
  method ChangeRoles(slice: Slice<string>, key: string, assign: bool) returns (result: Slice<string>)
    requires InBounds(slice)
    modifies slice.backing
    ensures InBounds(result) && Contents(result) == Changed(old(Contents(slice)), key, assign)
    ensures if |Changed(old(Contents(slice)), key, assign)| <= slice.backing.Length then InPlace(slice, result)
            else fresh(result.backing)
  {
    ghost var before := Contents(slice);
    var roles := Collect(slice);
    roles := if assign then roles + {key} else roles - {key};
    result := AppendAll(Slice(slice.backing, 0), roles);
    ghost var unsorted := Contents(result);
    SortInPlace(result);
    assert Elements(before + [key]) == Elements(before) + {key};
    SortedUnique(SortUnique(unsorted), Changed(before, key, assign));
  }

  /** The role list after assigning or revoking `key`. */
  function Changed(roles: seq<string>, key: string, assign: bool): seq<string> {
    SortUnique(if assign then roles + [key] else Without(roles, key))
  }

  // ---------------------------------------------------------------- the set the list stands for

  /** Assigning is set insertion and revoking is set removal, on the list that sorts the set. */
  lemma ChangeIsSetChange(roles: seq<string>, key: string)
    ensures StrictlySorted(Changed(roles, key, true)) && StrictlySorted(Changed(roles, key, false))
    ensures Elements(Changed(roles, key, true)) == Elements(roles) + {key}
    ensures Elements(Changed(roles, key, false)) == Elements(roles) - {key}
  {
    assert Elements(roles + [key]) == Elements(roles) + {key};
  }

  /** On a list that is already sorted, assigning a held role or revoking an absent one changes
      nothing, and revoking undoes assigning an absent one. */
  lemma ChangesUndo(roles: seq<string>, key: string)
    requires StrictlySorted(roles)
    ensures key in roles ==> Changed(roles, key, true) == roles
    ensures key !in roles ==> Changed(roles, key, false) == roles
    ensures key !in roles ==> Changed(Changed(roles, key, true), key, false) == roles
  {
    ChangeIsSetChange(roles, key);
    var granted := Changed(roles, key, true);
    ChangeIsSetChange(granted, key);
    assert key in roles <==> key in Elements(roles);
    if key in roles {
      SortedUnique(granted, roles);
    } else {
      SortedUnique(Changed(roles, key, false), roles);
      SortedUnique(Changed(granted, key, false), roles);
    }
  }

  // ---------------------------------------------------------------- what another holder of the list would see

  /** Revoking a held role under a second holder of the same slice: that holder goes on reading as many
      elements as before, and so reads the old list exactly when the last role was revoked. */
  method RevokeShared(slice: Slice<string>, key: string) returns (result: Slice<string>)
    requires InBounds(slice) && StrictlySorted(Contents(slice)) && key in Contents(slice)
    modifies slice.backing
    ensures InBounds(result) && Contents(result) == Changed(old(Contents(slice)), key, false)
    ensures Contents(slice) == Contents(result) + [old(Contents(slice)[slice.length - 1])]
    ensures Contents(slice) == old(Contents(slice)) <==> key == old(Contents(slice)[slice.length - 1])
  {
    ghost var before := Contents(slice);
    RevokedSize(before, key);
    result := ChangeRoles(slice, key, false);
    assert Contents(slice) == Contents(result) + [before[slice.length - 1]];
    if key == before[slice.length - 1] {
      assert before == before[..slice.length - 1] + [key];
      RevokedLast(before[..slice.length - 1], key);
    } else {
      assert key in before && key !in Elements(Contents(result));
      assert key !in Contents(slice);
    }
  }

  lemma RevokedSize(roles: seq<string>, key: string)
    requires StrictlySorted(roles) && key in roles
    ensures |Changed(roles, key, false)| == |roles| - 1
  {
    ChangeIsSetChange(roles, key);
    SortedSize(roles);
    SortedSize(Changed(roles, key, false));
    assert key in Elements(roles);
  }

  lemma RevokedLast(init: seq<string>, last: string)
    requires StrictlySorted(init + [last])
    ensures Changed(init + [last], last, false) == init
  {
    var roles := init + [last];
    forall i | 0 <= i < |init| ensures init[i] != last {
      assert Less(roles[i], roles[|init|]);
      LessIrreflexive(last);
    }
    SortedPrefix(init, last);
    ChangeIsSetChange(roles, last);
    assert Elements(roles) == Elements(init) + {last};
    SortedUnique(Changed(roles, last, false), init);
  }

  lemma SortedPrefix(init: seq<string>, last: string)
    requires StrictlySorted(init + [last])
    ensures StrictlySorted(init)
  {
    var roles := init + [last];
    forall i, j | 0 <= i < j < |init| ensures Less(init[i], init[j]) {
      assert Less(roles[i], roles[j]);
    }
  }
}
