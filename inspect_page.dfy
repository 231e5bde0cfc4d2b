/**
 * The paraphrase inspection workflow of the inspect page: the quorum evaluator
 * that turns one vote into new counters and a verdict, the inspection record
 * written per vote, and the session cursor that walks an inspector through the
 * paraphrases of one subject.
 *
 * Store reads are parameters (the listing, the fetched document, whether a
 * write succeeded) and store writes are the documents a method returns.
 */
module InspectPage {
  import opened Wrappers
  import Seqs

  /** `approvalRate`: the fraction of `validations_needed` a side needs. */
  const ApprovalRate: real := 0.1

  /** `isApproved`: `null`, `true` or `false`. */
  datatype Verdict = Unresolved | Approved | Rejected

  /**
   * The data of a paraphrase document. `others` stands for every field the
   * vote update copies through the object spread without looking at it.
   */
  datatype Paraphrase = Paraphrase(
    subjectId: string,
    text: string,
    approvalCount: int,
    rejectionCount: int,
    isApproved: Verdict,
    others: map<string, string>)

  /** A document of the `paraphrases` collection; `meta` is the store's own bookkeeping (version, owner, ...). */
  datatype StoredDoc = StoredDoc(key: string, meta: map<string, string>, data: Paraphrase)

  /** The vote total shown as progress. */
  function Total(p: Paraphrase): int {
    p.approvalCount + p.rejectionCount
  }

  /** `count >= validationsNeeded * approvalRate`, in exact rational arithmetic. */
  predicate Reaches(count: int, validationsNeeded: int) {
    count as real >= validationsNeeded as real * ApprovalRate
  }

  /**
   * The counter document after one vote: the voted side goes up by one and the
   * verdict is recomputed from that side alone, so a vote whose side stays
   * below the threshold writes `Unresolved` over any earlier verdict.
   */
  function CastVote(p: Paraphrase, vote: bool, validationsNeeded: int): (r: Paraphrase)
    ensures vote ==> r.approvalCount == p.approvalCount + 1 && r.rejectionCount == p.rejectionCount
    ensures !vote ==> r.rejectionCount == p.rejectionCount + 1 && r.approvalCount == p.approvalCount
    ensures Total(r) == Total(p) + 1
    ensures vote ==> (r.isApproved == Approved <==> 10 * r.approvalCount >= validationsNeeded)
    ensures vote ==> r.isApproved != Rejected
    ensures !vote ==> (r.isApproved == Rejected <==> 10 * r.rejectionCount >= validationsNeeded)
    ensures !vote ==> r.isApproved != Approved
    ensures r.subjectId == p.subjectId && r.text == p.text && r.others == p.others
  {
    var approval := if vote then p.approvalCount + 1 else p.approvalCount;
    var rejection := if vote then p.rejectionCount else p.rejectionCount + 1;
    var validate :=
      if vote && Reaches(approval, validationsNeeded) then Approved
      else if !vote && Reaches(rejection, validationsNeeded) then Rejected
      else Unresolved;
    p.(isApproved := validate, approvalCount := approval, rejectionCount := rejection)
  }

  /** Votes applied one after another, oldest first, with no concurrent writer. */
  function ApplyVotes(p: Paraphrase, votes: seq<bool>, validationsNeeded: int): Paraphrase
    decreases |votes|
  {
    if votes == [] then p else ApplyVotes(CastVote(p, votes[0], validationsNeeded), votes[1..], validationsNeeded)
  }

  /** The number of votes equal to `side`. */
  function CountOf(votes: seq<bool>, side: bool): nat {
    if votes == [] then 0 else (if votes[0] == side then 1 else 0) + CountOf(votes[1..], side)
  }

  /**
   * Sequential votes are counted exactly once each: the approvals grow by the
   * number of approve votes, the rejections by the number of reject votes, and
   * the total by the number of votes.
   */
  lemma {:induction false} VotesTally(p: Paraphrase, votes: seq<bool>, validationsNeeded: int)
    ensures ApplyVotes(p, votes, validationsNeeded).approvalCount == p.approvalCount + CountOf(votes, true)
    ensures ApplyVotes(p, votes, validationsNeeded).rejectionCount == p.rejectionCount + CountOf(votes, false)
    ensures Total(ApplyVotes(p, votes, validationsNeeded)) == Total(p) + |votes|
    decreases |votes|
  {
    if votes != [] {
      VotesTally(CastVote(p, votes[0], validationsNeeded), votes[1..], validationsNeeded);
    }
  }

  /** After any non-empty run of votes the verdict is what the last vote alone decided. */
  lemma {:induction false} VerdictFromLastVote(p: Paraphrase, votes: seq<bool>, validationsNeeded: int)
    requires votes != []
    ensures var last := votes[|votes| - 1];
            var before := ApplyVotes(p, votes[..|votes| - 1], validationsNeeded);
            ApplyVotes(p, votes, validationsNeeded) == CastVote(before, last, validationsNeeded)
    decreases |votes|
  {
    if |votes| > 1 {
      var q := CastVote(p, votes[0], validationsNeeded);
      VerdictFromLastVote(q, votes[1..], validationsNeeded);
      assert votes[1..][..|votes[1..]| - 1] == votes[..|votes| - 1][1..];
    }
  }

  /** A fresh paraphrase: no votes and no verdict. */
  function Fresh(subjectId: string, text: string): Paraphrase {
    Paraphrase(subjectId, text, 0, 0, Unresolved, map[])
  }

  /**
   * With ten validations needed one approve vote already approves, the
   * boundary between unresolved (0 approvals) and approved (1 approval).
   */
  lemma TenValidationsBoundary(subjectId: string, text: string)
    ensures Fresh(subjectId, text).isApproved == Unresolved
    ensures CastVote(Fresh(subjectId, text), true, 10).isApproved == Approved
    ensures CastVote(Fresh(subjectId, text), true, 10).approvalCount == 1
  {
  }

  /**
   * The verdict is not sticky: an approved paraphrase becomes unresolved after
   * one reject vote when the rejections stay below the threshold, and flips to
   * rejected when they reach it.
   */
  lemma VerdictNotSticky(subjectId: string, text: string)
    ensures ApplyVotes(Fresh(subjectId, text), [true, true], 20).isApproved == Approved
    ensures ApplyVotes(Fresh(subjectId, text), [true, true, false], 20).isApproved == Unresolved
    ensures ApplyVotes(Fresh(subjectId, text), [true], 10).isApproved == Approved
    ensures ApplyVotes(Fresh(subjectId, text), [true, false], 10).isApproved == Rejected
  {
    var f := Fresh(subjectId, text);
    assert ApplyVotes(f, [true, true], 20) == CastVote(CastVote(f, true, 20), true, 20) by {
      assert [true, true][1..] == [true];
      assert [true][1..] == [];
    }
    assert ApplyVotes(f, [true, true, false], 20) == CastVote(CastVote(CastVote(f, true, 20), true, 20), false, 20) by {
      assert [true, true, false][1..] == [true, false];
      assert [true, false][1..] == [false];
      assert [false][1..] == [];
    }
    assert ApplyVotes(f, [true, false], 10) == CastVote(CastVote(f, true, 10), false, 10) by {
      assert [true, false][1..] == [false];
      assert [false][1..] == [];
    }
    assert ApplyVotes(f, [true], 10) == CastVote(f, true, 10) by {
      assert [true][1..] == [];
    }
  }

  /** The triple `[paraphrase, key, approvalCount + rejectionCount]` shown by the page. */
  datatype Item = Item(text: string, key: string, total: int)

  function ItemOf(d: StoredDoc): Item {
    Item(d.data.text, d.key, Total(d.data))
  }

  /** Whether a listed document belongs to the subject being inspected. */
  function OfSubject(subjectId: string): StoredDoc -> bool {
    (d: StoredDoc) => d.data.subjectId == subjectId
  }

  /** The session's view of a listing: the subject's paraphrases, in store order. */
  function Items(listing: seq<StoredDoc>, subjectId: string): seq<Item> {
    var matching := Seqs.Filter(listing, OfSubject(subjectId));
    seq(|matching|, i requires 0 <= i < |matching| => ItemOf(matching[i]))
  }

  /**
   * The filter-then-push of the page: keeps exactly the documents of the subject
   * and turns each into its triple, in the order the store listed them.
   */
  method BuildItems(listing: seq<StoredDoc>, subjectId: string) returns (results: seq<Item>)
    ensures results == Items(listing, subjectId)
    ensures forall it :: it in results <==>
      exists d :: d in listing && d.data.subjectId == subjectId && it == ItemOf(d)
  {
    var filtered := Seqs.Filter(listing, OfSubject(subjectId));
    results := [];
    for i := 0 to |filtered|
      invariant |results| == i
      invariant forall k :: 0 <= k < i ==> results[k] == ItemOf(filtered[k])
    {
      results := results + [ItemOf(filtered[i])];
    }
    forall it | it in results
      ensures exists d :: d in listing && d.data.subjectId == subjectId && it == ItemOf(d)
    {
      var k :| 0 <= k < |results| && results[k] == it;
      Seqs.FilterMembership(listing, OfSubject(subjectId), filtered[k]);
    }
    forall d | d in listing && d.data.subjectId == subjectId
      ensures ItemOf(d) in results
    {
      Seqs.FilterMembership(listing, OfSubject(subjectId), d);
      var k :| 0 <= k < |filtered| && filtered[k] == d;
      assert results[k] == ItemOf(d);
    }
  }

  /**
   * The inspection template. Every field is optional because the reset after
   * a vote replaces the template by one holding only `paraphrase_id` and
   * `isValid`; a missing field is `None`, and so is `isValid: null`.
   */
  datatype Inspection = Inspection(
    inspectorId: Option<string>,
    projectTitle: Option<string>,
    subjectId: Option<string>,
    paraphraseId: Option<string>,
    gemPayout: Option<int>,
    isValid: Option<bool>)

  function InitialTemplate(subjectId: string): Inspection {
    Inspection(Some(""), Some(""), Some(subjectId), Some(""), Some(0), None)
  }

  /** `{ paraphrase_id: "", isValid: null }`. */
  const ResetTemplate: Inspection := Inspection(None, None, None, Some(""), None, None)

  /** The record written to the inspections ledger: the template with the voter, the vote and the paraphrase filled in. */
  function Record(template: Inspection, inspector: string, vote: bool, paraphraseKey: string): (r: Inspection)
    ensures r.inspectorId == Some(inspector) && r.isValid == Some(vote) && r.paraphraseId == Some(paraphraseKey)
    ensures r.projectTitle == template.projectTitle && r.subjectId == template.subjectId
    ensures r.gemPayout == template.gemPayout
  {
    template.(inspectorId := Some(inspector), isValid := Some(vote), paraphraseId := Some(paraphraseKey))
  }

  /**
   * Because the reset template drops `subject_id`, `project_title` and
   * `gem_payout`, only the first record of a session carries them.
   */
  lemma LaterRecordsLackSubject(subjectId: string, inspector: string, vote: bool, key: string)
    ensures Record(InitialTemplate(subjectId), inspector, vote, key).subjectId == Some(subjectId)
    ensures Record(ResetTemplate, inspector, vote, key).subjectId == None
    ensures Record(ResetTemplate, inspector, vote, key).projectTitle == None
  {
  }

  /** The client-side state of one inspector working through one subject. */
  class Session {
    /** `location.state`: the subject being inspected. */
    const subjectId: string
    /** `user.key`, or `None` when no one is signed in. */
    const userKey: Option<string>
    var validationsNeeded: int
    var paraphrases: seq<Item>
    var index: nat
    var currentCount: int
    var isSubmitted: bool
    var transaction: Inspection

    /** The cursor never points past a loaded list. */
    ghost predicate Valid()
      reads this
    {
      index == 0 || index < |paraphrases|
    }

    constructor (subjectId: string, userKey: Option<string>)
      ensures Valid()
      ensures this.subjectId == subjectId && this.userKey == userKey
      ensures validationsNeeded == 0 && paraphrases == [] && index == 0
      ensures currentCount == 0 && !isSubmitted && transaction == InitialTemplate(subjectId)
    {
      this.subjectId := subjectId;
      this.userKey := userKey;
      validationsNeeded := 0;
      paraphrases := [];
      index := 0;
      currentCount := 0;
      isSubmitted := false;
      transaction := InitialTemplate(subjectId);
    }

    /** The project document arrived: its `validations_needed` becomes the session's. */
    method LoadProject(validations: int)
      modifies this`validationsNeeded
      ensures validationsNeeded == validations
    {
      validationsNeeded := validations;
    }

    /**
     * The initial load; `listing` is `None` when listing the store failed, and
     * then nothing is stored. When the cursor has no item in the fresh list (in
     * particular when the subject has no paraphrases) reading its count fails
     * and nothing is stored either.
     */
    method Load(listing: Option<seq<StoredDoc>>)
      requires Valid()
      modifies this`paraphrases, this`currentCount
      ensures Valid()
      ensures listing.None? ==> paraphrases == old(paraphrases) && currentCount == old(currentCount)
      ensures listing.Some? ==>
                var listed := Items(listing.value, subjectId);
                if index < |listed| then paraphrases == listed && currentCount == listed[index].total
                else paraphrases == old(paraphrases) && currentCount == old(currentCount)
    {
      if listing.None? {
        return;
      }
      var results := BuildItems(listing.value, subjectId);
      if index < |results| {
        currentCount := results[index].total;
        paraphrases := results;
      }
    }

    /**
     * One vote. With no signed-in user or no current item nothing happens. If
     * the ledger write fails nothing else happens. Otherwise the record is
     * written; when the paraphrase document could be fetched its updated counters
     * are written and the progress shows their new total; finally the template
     * is reset and the item is marked as submitted. `fetched` is the store's
     * answer to the read of the current item's key (`None` when it failed).
     */
    method Vote(vote: bool, ledgerWriteOk: bool, fetched: Option<StoredDoc>)
      returns (record: Option<Inspection>, counters: Option<StoredDoc>)
      requires Valid()
      requires fetched.Some? && index < |paraphrases| ==> fetched.value.key == paraphrases[index].key
      modifies this`currentCount, this`transaction, this`isSubmitted
      ensures Valid()
      ensures var proceeds := userKey.Some? && index < |paraphrases| && ledgerWriteOk;
              && (record.Some? <==> proceeds)
              && (proceeds ==> record.value == Record(old(transaction), userKey.value, vote, paraphrases[index].key))
              && (counters.Some? <==> proceeds && fetched.Some?)
              && (counters.Some? ==>
                    && counters.value.key == fetched.value.key == paraphrases[index].key
                    && counters.value.meta == fetched.value.meta
                    && counters.value.data == CastVote(fetched.value.data, vote, validationsNeeded)
                    && currentCount == Total(fetched.value.data) + 1)
              && (counters.None? ==> currentCount == old(currentCount))
              && (proceeds ==> transaction == ResetTemplate && isSubmitted)
              && (!proceeds ==> transaction == old(transaction) && isSubmitted == old(isSubmitted))
    {
      record, counters := None, None;
      if userKey.None? || index >= |paraphrases| {
        return;
      }
      var updated := Record(transaction, userKey.value, vote, paraphrases[index].key);
      if !ledgerWriteOk {
        return;
      }
      record := Some(updated);
      if fetched.Some? {
        var data := CastVote(fetched.value.data, vote, validationsNeeded);
        currentCount := Total(data);
        counters := Some(fetched.value.(data := data));
      }
      transaction := ResetTemplate;
      isSubmitted := true;
    }

    /**
     * "Next": re-list the subject's paraphrases and move on if the fresh list
     * has an item after the cursor; at the end, or when listing the store
     * failed (`None`), nothing changes.
     */
    method Advance(listing: Option<seq<StoredDoc>>)
      requires Valid()
      modifies this`index, this`paraphrases, this`currentCount, this`isSubmitted
      ensures Valid()
      ensures listing.None? ==>
                index == old(index) && paraphrases == old(paraphrases)
                && currentCount == old(currentCount) && isSubmitted == old(isSubmitted)
      ensures listing.Some? ==>
                var listed := Items(listing.value, subjectId);
                if old(index) + 1 >= |listed| then
                  index == old(index) && paraphrases == old(paraphrases)
                  && currentCount == old(currentCount) && isSubmitted == old(isSubmitted)
                else
                  index == old(index) + 1 && paraphrases == listed
                  && currentCount == listed[index].total && !isSubmitted
    {
      if listing.None? {
        return;
      }
      var results := BuildItems(listing.value, subjectId);
      if index + 1 >= |results| {
        return;
      }
      index := index + 1;
      paraphrases := results;
      currentCount := results[index].total;
      isSubmitted := false;
    }

    /** The paraphrase text on screen, or "Loading..." while there is none. */
    function Display(): (r: string)
      requires Valid()
      reads this
      ensures paraphrases == [] ==> r == "Loading..."
      ensures paraphrases != [] ==> r == paraphrases[index].text
    {
      if |paraphrases| > 0 && index < |paraphrases| then paraphrases[index].text else "Loading..."
    }
  }
}
