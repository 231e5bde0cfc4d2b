/**
 * The marketplace project list: the filter that hides every "jain project"
 * after the first (compared case-insensitively), the cleanup that deletes
 * those duplicates from the store, and the creator-only delete guard.
 */
module Projects {
  import opened Wrappers
  import opened Strings
  import Seqs

  /** A document of the `projects` collection; a missing title is `None`. */
  datatype Project = Project(key: string, title: Option<string>, creatorId: string, others: map<string, string>)

  const JainTitle: string := "jain project"

  /** `project.data.title && project.data.title.toLowerCase() === 'jain project'` */
  predicate IsJain(p: Project) {
    p.title.Some? && p.title.value != "" && Lower(p.title.value) == JainTitle
  }

  predicate NotJain(p: Project) {
    !IsJain(p)
  }

  /**
   * The reference definition of the filter: every project that is not a
   * "jain project" is kept, and a "jain project" is kept only while none has
   * been kept before (`seen`).
   */
  function DedupFrom(ps: seq<Project>, seen: bool): seq<Project>
    decreases |ps|
  {
    if ps == [] then []
    else if IsJain(ps[0]) then (if seen then [] else [ps[0]]) + DedupFrom(ps[1..], true)
    else [ps[0]] + DedupFrom(ps[1..], seen)
  }

  function Dedup(ps: seq<Project>): seq<Project> {
    DedupFrom(ps, false)
  }

  /**
   * `filterDuplicateProjects`: one pass with a `seen` map keyed by the
   * lower-cased title, pushing the projects it keeps.
   */
  method FilterDuplicates(projects: seq<Project>) returns (filtered: seq<Project>)
    ensures filtered == Dedup(projects)
  {
    var seen: map<string, Project> := map[];
    filtered := [];
    for i := 0 to |projects|
      invariant seen.Keys <= {JainTitle}
      invariant filtered + DedupFrom(projects[i..], JainTitle in seen) == Dedup(projects)
    {
      var project := projects[i];
      ghost var kept := JainTitle in seen;
      assert projects[i..][1..] == projects[i + 1..];
      DedupStep(projects[i..], kept);
      ghost var rest := DedupFrom(projects[i + 1..], kept || IsJain(project));
      if project.title.Some? && project.title.value != "" && Lower(project.title.value) == JainTitle {
        var key := Lower(project.title.value);
        if key !in seen {
          seen := seen[key := project];
          AppendStep(filtered, project, rest);
          filtered := filtered + [project];
        }
      } else {
        AppendStep(filtered, project, rest);
        filtered := filtered + [project];
      }
    }
  }

  lemma AppendStep(xs: seq<Project>, x: Project, rest: seq<Project>)
    ensures xs + ([x] + rest) == (xs + [x]) + rest
  {
  }

  /** One step of the reference filter. */
  lemma DedupStep(ps: seq<Project>, seen: bool)
    requires ps != []
    ensures DedupFrom(ps, seen)
            == (if IsJain(ps[0]) && seen then [] else [ps[0]]) + DedupFrom(ps[1..], seen || IsJain(ps[0]))
  {
  }

  /** Once a "jain project" has been kept, the rest of the filter keeps only the others. */
  lemma {:induction false} DedupSeenIsNotJain(ps: seq<Project>)
    ensures DedupFrom(ps, true) == Seqs.Filter(ps, NotJain)
  {
    if ps != [] {
      DedupSeenIsNotJain(ps[1..]);
    }
  }

  /** The filter keeps its input's order: its output is a subsequence of the input. */
  lemma {:induction false} DedupIsSubsequence(ps: seq<Project>, seen: bool)
    ensures Seqs.IsSubsequence(DedupFrom(ps, seen), ps)
  {
    if ps != [] {
      DedupIsSubsequence(ps[1..], true);
      DedupIsSubsequence(ps[1..], seen);
      var r := DedupFrom(ps, seen);
      if !IsJain(ps[0]) || !seen {
        assert r[0] == ps[0] && r[1..] == DedupFrom(ps[1..], if IsJain(ps[0]) then true else seen);
      } else {
        assert r == DedupFrom(ps[1..], true);
      }
    }
  }

  /** Every project that is not a "jain project", untitled ones included, is kept, in order. */
  lemma {:induction false} DedupKeepsOthers(ps: seq<Project>, seen: bool)
    ensures Seqs.Filter(DedupFrom(ps, seen), NotJain) == Seqs.Filter(ps, NotJain)
  {
    if ps != [] {
      var next := if IsJain(ps[0]) then true else seen;
      DedupKeepsOthers(ps[1..], next);
      var head := if IsJain(ps[0]) && seen then [] else [ps[0]];
      assert DedupFrom(ps, seen) == head + DedupFrom(ps[1..], next);
      Seqs.FilterAppend(head, DedupFrom(ps[1..], next), NotJain);
    }
  }

  /** Of the "jain project"s exactly the first is kept, and none when there is none. */
  lemma {:induction false} DedupKeepsFirstJain(ps: seq<Project>)
    ensures var jains := Seqs.Filter(ps, IsJain);
            Seqs.Filter(Dedup(ps), IsJain) == if jains == [] then [] else [jains[0]]
  {
    if ps != [] {
      DedupKeepsFirstJain(ps[1..]);
      if IsJain(ps[0]) {
        DedupSeenIsNotJain(ps[1..]);
        NoJainAmongOthers(ps[1..]);
        Seqs.FilterAppend([ps[0]], DedupFrom(ps[1..], true), IsJain);
      } else {
        Seqs.FilterAppend([ps[0]], Dedup(ps[1..]), IsJain);
      }
    }
  }

  lemma {:induction false} NoJainAmongOthers(ps: seq<Project>)
    ensures Seqs.Filter(Seqs.Filter(ps, NotJain), IsJain) == []
  {
    if ps != [] {
      NoJainAmongOthers(ps[1..]);
      if NotJain(ps[0]) {
        assert Seqs.Filter(ps, NotJain) == [ps[0]] + Seqs.Filter(ps[1..], NotJain);
        Seqs.FilterAppend([ps[0]], Seqs.Filter(ps[1..], NotJain), IsJain);
        assert Seqs.Filter([ps[0]], IsJain) == [] by {
          assert [ps[0]][1..] == [];
        }
      } else {
        assert Seqs.Filter(ps, NotJain) == Seqs.Filter(ps[1..], NotJain);
      }
    }
  }

  /** At most one "jain project" survives the filter. */
  lemma AtMostOneJain(ps: seq<Project>)
    ensures |Seqs.Filter(Dedup(ps), IsJain)| <= 1
  {
    DedupKeepsFirstJain(ps);
  }

  /** A list holding at most one "jain project" passes the filter unchanged. */
  lemma {:induction false} DedupFixes(ps: seq<Project>, seen: bool)
    requires |Seqs.Filter(ps, IsJain)| <= (if seen then 0 else 1)
    ensures DedupFrom(ps, seen) == ps
  {
    if ps != [] {
      assert Seqs.Filter(ps, IsJain) == (if IsJain(ps[0]) then [ps[0]] else []) + Seqs.Filter(ps[1..], IsJain);
      DedupFixes(ps[1..], if IsJain(ps[0]) then true else seen);
    }
  }

  /** The filter is idempotent. */
  lemma DedupIdempotent(ps: seq<Project>)
    ensures Dedup(Dedup(ps)) == Dedup(ps)
  {
    AtMostOneJain(ps);
    DedupFixes(Dedup(ps), false);
  }

  /**
   * The duplicates the cleanup deletes: every "jain project" after the first.
   * There are none exactly when the listing holds at most one "jain project".
   */
  function CleanupTargets(ps: seq<Project>): (r: seq<Project>)
    ensures r == [] <==> |Seqs.Filter(ps, IsJain)| <= 1
    ensures forall i :: 0 <= i < |r| ==> IsJain(r[i])
  {
    var jains := Seqs.Filter(ps, IsJain);
    if |jains| > 1 then jains[1..] else []
  }

  /** Every cleanup target is a project of the listing. */
  lemma CleanupTargetsListed(ps: seq<Project>)
    ensures forall t :: t in CleanupTargets(ps) ==> t in ps
  {
    forall t | t in CleanupTargets(ps) ensures t in ps {
      Seqs.FilterMembership(ps, IsJain, t);
    }
  }

  /**
   * The cleanup deletes exactly what the filter drops: the filtered list and the
   * deletions together are the listing, counted with multiplicity.
   */
  lemma {:induction false} CleanupDeletesDropped(ps: seq<Project>)
    ensures multiset(Dedup(ps)) + multiset(CleanupTargets(ps)) == multiset(ps)
    ensures |Dedup(ps)| + |CleanupTargets(ps)| == |ps|
  {
    if ps != [] {
      assert ps == [ps[0]] + ps[1..];
      if IsJain(ps[0]) {
        SeenDropsJains(ps[1..]);
        assert Seqs.Filter(ps, IsJain) == [ps[0]] + Seqs.Filter(ps[1..], IsJain);
        assert CleanupTargets(ps) == Seqs.Filter(ps[1..], IsJain);
      } else {
        CleanupDeletesDropped(ps[1..]);
        assert Seqs.Filter(ps, IsJain) == Seqs.Filter(ps[1..], IsJain);
      }
    }
  }

  lemma {:induction false} SeenDropsJains(ps: seq<Project>)
    ensures multiset(DedupFrom(ps, true)) + multiset(Seqs.Filter(ps, IsJain)) == multiset(ps)
    ensures |DedupFrom(ps, true)| + |Seqs.Filter(ps, IsJain)| == |ps|
  {
    if ps != [] {
      SeenDropsJains(ps[1..]);
      assert ps == [ps[0]] + ps[1..];
    }
  }

  /** The filtered list is shorter than the listing exactly when there are two or more "jain project"s. */
  lemma CleanupNeededIff(ps: seq<Project>)
    ensures |Dedup(ps)| != |ps| <==> |Seqs.Filter(ps, IsJain)| > 1
  {
    CleanupDeletesDropped(ps);
  }

  /**
   * The deletion loop of `deleteDuplicateJainProjects`: deletes the
   * "jain project"s from position 1 on, stopping at the first delete that
   * fails (`deleteOk` says which deletes the store accepts).
   */
  method DeleteDuplicates(items: seq<Project>, deleteOk: Project -> bool)
    returns (deleted: seq<Project>, completed: bool)
    ensures |deleted| <= |CleanupTargets(items)| && deleted == CleanupTargets(items)[..|deleted|]
    ensures forall d :: d in deleted ==> deleteOk(d)
    ensures completed <==> deleted == CleanupTargets(items)
    ensures !completed ==> !deleteOk(CleanupTargets(items)[|deleted|])
  {
    var jainProjects := Seqs.Filter(items, IsJain);
    deleted, completed := [], true;
    if |jainProjects| > 1 {
      ghost var targets := CleanupTargets(items);
      assert targets == jainProjects[1..];
      var i := 1;
      while i < |jainProjects|
        invariant 1 <= i <= |jainProjects|
        invariant deleted == targets[..i - 1]
        invariant forall d :: d in deleted ==> deleteOk(d)
      {
        assert targets[i - 1] == jainProjects[i];
        if !deleteOk(jainProjects[i]) {
          completed := false;
          return;
        }
        assert targets[..i] == targets[..i - 1] + [targets[i - 1]];
        deleted := deleted + [jainProjects[i]];
        i := i + 1;
      }
      assert targets[..i - 1] == targets;
    }
  }

  /** The delete button acts only for the project's creator, and never without a signed-in user. */
  function MayDelete(userKey: Option<string>, p: Project): (r: bool)
    ensures userKey.None? ==> !r
    ensures r <==> userKey == Some(p.creatorId)
  {
    userKey.Some? && userKey.value == p.creatorId
  }

  /** The state of the project list component. */
  class ProjectList {
    var items: seq<Project>
    var isDeleting: bool
    /** The last count reported to the parent through `onProjectCountChange`. */
    var reportedCount: Option<nat>

    constructor ()
      ensures items == [] && !isDeleting && reportedCount.None?
    {
      items := [];
      isDeleting := false;
      reportedCount := None;
    }

    /**
     * `getProjects`: show the filtered listing, report its length, and ask for
     * a cleanup when the filter dropped something and no cleanup is running as
     * far as the calling handler can see (`deletingSeen`, the `isDeleting` of
     * the render whose closure runs). A failed listing (`None`) is caught and
     * changes nothing.
     */
    method GetProjects(listing: Option<seq<Project>>, deletingSeen: bool) returns (startCleanup: bool)
      modifies this`items, this`reportedCount
      ensures listing.None? ==> items == old(items) && reportedCount == old(reportedCount)
      ensures listing.Some? ==> items == Dedup(listing.value) && reportedCount == Some(|Dedup(listing.value)|)
      ensures startCleanup <==> listing.Some? && |listing.value| != |Dedup(listing.value)| && !deletingSeen
    {
      startCleanup := false;
      if listing.None? {
        return;
      }
      var filteredItems := FilterDuplicates(listing.value);
      items := filteredItems;
      reportedCount := Some(|filteredItems|);
      startCleanup := |listing.value| != |filteredItems| && !deletingSeen;
    }

    /**
     * `deleteDuplicateJainProjects`: list the store (`listing`, `None` when that
     * fails), delete the duplicates, and, if every delete went through, refresh
     * from `refreshed`. The refresh runs in the closure of the render that
     * started the cleanup, where `isDeleting` was still false, so it asks for
     * another cleanup (`again`) whenever duplicates remain.
     */
    method DeleteDuplicateJainProjects(listing: Option<seq<Project>>, deleteOk: Project -> bool,
                                       refreshed: Option<seq<Project>>)
      returns (deleted: seq<Project>, again: bool)
      modifies this`items, this`reportedCount, this`isDeleting
      ensures listing.None? ==> deleted == []
      ensures listing.Some? ==>
                && |deleted| <= |CleanupTargets(listing.value)|
                && deleted == CleanupTargets(listing.value)[..|deleted|]
                && (forall d :: d in deleted ==> deleteOk(d))
                && (deleted != CleanupTargets(listing.value) ==> !deleteOk(CleanupTargets(listing.value)[|deleted|]))
      ensures var refreshes := listing.Some? && deleted == CleanupTargets(listing.value) && refreshed.Some?;
              && (refreshes ==> items == Dedup(refreshed.value) && reportedCount == Some(|Dedup(refreshed.value)|))
              && (!refreshes ==> items == old(items) && reportedCount == old(reportedCount))
              && (again <==> refreshes && |refreshed.value| != |Dedup(refreshed.value)|)
      ensures !isDeleting
    {
      isDeleting := true;
      deleted, again := [], false;
      if listing.Some? {
        var completed;
        deleted, completed := DeleteDuplicates(listing.value, deleteOk);
        if completed {
          again := GetProjects(refreshed, false);
        }
      }
      isDeleting := false;
    }

    /**
     * "Delete Project": only the creator's click deletes; a deletion refreshes
     * the list from `refreshed`, and that refresh asks for a cleanup when
     * duplicates remain and no cleanup is running.
     */
    method DeleteProject(item: Project, userKey: Option<string>, deleteOk: bool, refreshed: Option<seq<Project>>)
      returns (deleted: bool, startCleanup: bool)
      modifies this`items, this`reportedCount
      ensures deleted <==> MayDelete(userKey, item) && deleteOk
      ensures deleted && refreshed.Some? ==>
                items == Dedup(refreshed.value) && reportedCount == Some(|Dedup(refreshed.value)|)
      ensures !deleted || refreshed.None? ==> items == old(items) && reportedCount == old(reportedCount)
      ensures startCleanup <==>
                deleted && refreshed.Some? && |refreshed.value| != |Dedup(refreshed.value)| && !isDeleting
    {
      deleted := MayDelete(userKey, item) && deleteOk;
      startCleanup := false;
      if deleted {
        startCleanup := GetProjects(refreshed, isDeleting);
      }
    }
  }
}
