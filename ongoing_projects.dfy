/**
 * The dashboard's project list: the same duplicate filter as the marketplace
 * list, followed, when the "my projects" toggle is on, by a filter that keeps
 * only the signed-in user's projects.
 */
module OngoingProjects {
  import opened Wrappers
  import Seqs
  import opened Projects

  /** Whether a project was created by `userKey`. */
  function CreatedBy(userKey: string): Project -> bool {
    (p: Project) => p.creatorId == userKey
  }

  /**
   * `getProjects`: de-duplicate the listing, then restrict it to the user's own
   * projects when `toggle` is on. The result is the new list shown, or `None`
   * when the shown list stays as it was: when listing the store failed, or when
   * the toggle is on, no one is signed in and the restriction reads `user.key`
   * for some item (an empty list never calls the filter's callback).
   */
  method GetProjects(listing: Option<seq<Project>>, toggle: bool, userKey: Option<string>)
    returns (items: Option<seq<Project>>)
    ensures listing.None? ==> items.None?
    ensures listing.Some? && !toggle ==> items == Some(Dedup(listing.value))
    ensures listing.Some? && toggle && userKey.None? ==>
              if Dedup(listing.value) == [] then items == Some([]) else items.None?
    ensures listing.Some? && toggle && userKey.Some? ==>
              items == Some(Seqs.Filter(Dedup(listing.value), CreatedBy(userKey.value)))
    ensures toggle && userKey.Some? && items.Some? ==>
              forall i :: 0 <= i < |items.value| ==> items.value[i].creatorId == userKey.value
    ensures items.Some? ==> Seqs.IsSubsequence(items.value, listing.value)
  {
    if listing.None? {
      return None;
    }
    var filtered := FilterDuplicates(listing.value);
    DedupIsSubsequence(listing.value, false);
    if toggle {
      if userKey.None? {
        if filtered == [] {
          return Some([]);
        }
        return None;
      }
      var own := Seqs.Filter(filtered, CreatedBy(userKey.value));
      Seqs.FilterIsSubsequence(filtered, CreatedBy(userKey.value));
      Seqs.SubsequenceTransitive(own, filtered, listing.value);
      items := Some(own);
    } else {
      items := Some(filtered);
    }
  }

  /**
   * De-duplication runs before the creator filter: a user's own later
   * "jain project" is hidden when someone else's came first.
   */
  lemma OwnLaterDuplicateHidden(theirs: Project, mine: Project, me: string)
    requires IsJain(theirs) && IsJain(mine)
    requires theirs.creatorId != me && mine.creatorId == me
    ensures Seqs.Filter(Dedup([theirs, mine]), CreatedBy(me)) == []
  {
    assert [theirs, mine][1..] == [mine];
    assert [mine][1..] == [];
    assert DedupFrom([mine], true) == [];
    assert Dedup([theirs, mine]) == [theirs] + DedupFrom([mine], true);
    assert [theirs][1..] == [];
  }
}
