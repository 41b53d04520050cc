/** The election list (src/components/elections/ElectionList.tsx): the
    active-only filter and the admin-only create link. */
module ElectionList {
  import opened Wrappers
  import opened Types

  /** The `activeOnly` prop; left out, it is false. */
  function ActiveOnlyProp(prop: Option<bool>): (activeOnly: bool)
    ensures activeOnly <==> prop == Some(true)
  {
    prop.GetOr(false)
  }

  /** `elections.filter(e => e.status === 'active')`. */
  function ActiveElections(elections: seq<Election>): (r: seq<Election>)
    ensures |r| <= |elections|
    ensures forall e :: e in r <==> e in elections && e.status == Active
  {
    if elections == [] then []
    else (if elections[0].status == Active then [elections[0]] else []) + ActiveElections(elections[1..])
  }

  /** `a` is `b` with some elements left out, the rest in the same order. */
  predicate IsSubsequence<T(==)>(a: seq<T>, b: seq<T>)
    decreases |b|
  {
    if a == [] then true
    else if b == [] then false
    else if a[0] == b[0] then IsSubsequence(a[1..], b[1..])
    else IsSubsequence(a, b[1..])
  }

  /** The filter keeps the active elections in their order. */
  lemma {:induction false} ActiveElectionsIsSubsequence(elections: seq<Election>)
    ensures IsSubsequence(ActiveElections(elections), elections)
    decreases |elections|
  {
    if elections != [] {
      var rest := elections[1..];
      ActiveElectionsIsSubsequence(rest);
      var kept := ActiveElections(rest);
      if elections[0].status == Active {
        assert ([elections[0]] + kept)[1..] == kept;
      } else if kept != [] {
        // the first kept election is active, so it is not elections[0]
        assert kept[0] in kept;
        assert kept[0] != elections[0];
        assert ActiveElections(elections) == kept;
        assert elections[1..] == rest;
      }
    }
  }

  /** Each active election appears as often as in the input; no other does. */
  lemma {:induction false} ActiveElectionsKeepsCounts(elections: seq<Election>, e: Election)
    ensures multiset(ActiveElections(elections))[e] == if e.status == Active then multiset(elections)[e] else 0
    decreases |elections|
  {
    if elections != [] {
      ActiveElectionsKeepsCounts(elections[1..], e);
      assert elections == [elections[0]] + elections[1..];
    }
  }

  /** `filteredElections`: nothing while the list is loading, the active
      elections with `activeOnly`, the whole list without it. */
  function FilteredElections(elections: Option<seq<Election>>, activeOnly: bool): (r: Option<seq<Election>>)
    ensures elections.None? ==> r.None?
    ensures !activeOnly ==> r == elections
    ensures activeOnly && elections.Some? ==>
              r.Some? && IsSubsequence(r.value, elections.value)
              && forall e :: e in r.value <==> e in elections.value && e.status == Active
    ensures activeOnly && elections.Some? ==> r == Some(ActiveElections(elections.value))
  {
    if activeOnly then
      match elections
      case None => None
      case Some(s) => ActiveElectionsIsSubsequence(s); Some(ActiveElections(s))
    else elections
  }

  /** The "Create Election" link is shown to a signed-in admin only. */
  function ShowCreateLink(user: Option<User>): (shown: bool)
    ensures shown <==> user.Some? && user.value.role == Admin
  {
    match user
    case None => false
    case Some(u) => u.role == Admin
  }
}
