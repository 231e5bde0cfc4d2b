/**
 * The new-project form: the gem cost of a draft project, the draft subject
 * list (append, delete by id, the non-blank check that enables "Add Subject")
 * and the creator stamp and reset when the project is posted.
 */
module NewProject {
  import opened Wrappers
  import opened Strings
  import Seqs

  /**
   * A subject of a project. `paraphrases` is `None` where the source's object
   * literal has no such field and `Some([])` where it sets an empty one.
   */
  datatype Subject = Subject(
    id: string,
    title: string,
    isMined: bool,
    isValidated: bool,
    completionDate: string,
    paraphrases: Option<seq<string>>)

  /** `formInfo`: the project being drafted; `creationDate` is a timestamp. */
  datatype ProjectForm = ProjectForm(
    title: string,
    creatorId: string,
    subjects: seq<Subject>,
    language: string,
    minerPayout: int,
    inspectorPayout: int,
    paraphrasesNeeded: int,
    validationsNeeded: int,
    creationDate: int)

  /** The form's initial and post-reset value: payouts 10 and 1, 20 paraphrases, 10 validations. */
  const InitialForm: ProjectForm := ProjectForm("", "", [], "", 10, 1, 20, 10, 0)

  /** The blank subject draft of the initial state and of the reset after posting. */
  const BlankSubject: Subject := Subject("", "", false, false, "", None)

  /** The blank subject draft set after "Add Subject", which also carries `paraphrases: []`. */
  const ClearedSubject: Subject := Subject("", "", false, false, "", Some([]))

  /** The guard of the cost formula: no subjects, or a payout or quota that is 0. */
  predicate NothingToPay(f: ProjectForm) {
    |f.subjects| <= 0 || f.minerPayout == 0 || f.inspectorPayout == 0
    || f.paraphrasesNeeded == 0 || f.validationsNeeded == 0
  }

  /** The gems one subject costs: its paraphrases, each paid to a miner and to every inspector. */
  function PerSubjectCost(f: ProjectForm): int {
    f.paraphrasesNeeded * (f.minerPayout + f.inspectorPayout * f.validationsNeeded)
  }

  /**
   * `calculateGemCost`: zero when there is nothing to pay, and otherwise the
   * subject count times the cost of one subject.
   */
  function GemCost(f: ProjectForm): (r: int)
    ensures NothingToPay(f) ==> r == 0
    ensures !NothingToPay(f) ==> r == |f.subjects| * PerSubjectCost(f)
  {
    if NothingToPay(f) then 0
    else
      var n := |f.subjects|;
      var cost := n * f.minerPayout * f.paraphrasesNeeded
                  + n * f.inspectorPayout * f.validationsNeeded * f.paraphrasesNeeded;
      assert cost == n * PerSubjectCost(f) by {
        CostFactors(n, f.minerPayout, f.inspectorPayout, f.paraphrasesNeeded, f.validationsNeeded);
      }
      cost
  }

  lemma CostFactors(n: int, m: int, i: int, p: int, v: int)
    ensures n * m * p + n * i * v * p == n * (p * (m + i * v))
  {
    calc {
      n * (p * (m + i * v));
      n * (p * m + p * (i * v));
      n * (p * m) + n * (p * (i * v));
      n * m * p + n * i * v * p;
    }
  }

  /** The cost grows linearly with the subject count: `n` subjects cost `n` times one subject. */
  lemma CostLinear(f: ProjectForm, one: Subject)
    requires !NothingToPay(f)
    ensures GemCost(f) == |f.subjects| * GemCost(f.(subjects := [one]))
  {
  }

  /** With the default payouts and quotas every subject costs 400 gems. */
  lemma DefaultCost(subjects: seq<Subject>)
    ensures GemCost(InitialForm.(subjects := subjects)) == 400 * |subjects|
  {
  }

  /** `isFilled`: whether the draft subject's title has a character other than whitespace. */
  function IsFilled(draft: Subject): (r: bool)
    ensures r <==> HasVisible(draft.title)
  {
    TrimEmptyIff(draft.title);
    Trim(draft.title) != ""
  }

  /** Whether a subject's id differs from `id`. */
  function IdIsNot(id: string): Subject -> bool {
    (s: Subject) => s.id != id
  }

  /**
   * `deleteSubject`'s filter: the subjects whose id is not `id`, in order, each
   * as often as it was listed.
   */
  function WithoutId(subjects: seq<Subject>, id: string): (r: seq<Subject>)
    ensures forall s :: s in r <==> s in subjects && s.id != id
    ensures forall s :: multiset(r)[s] == if s.id != id then multiset(subjects)[s] else 0
    ensures Seqs.IsSubsequence(r, subjects)
  {
    Seqs.FilterIsSubsequence(subjects, IdIsNot(id));
    var r := Seqs.Filter(subjects, IdIsNot(id));
    assert forall s :: s in r <==> s in subjects && s.id != id by {
      forall s ensures s in r <==> s in subjects && s.id != id {
        Seqs.FilterMembership(subjects, IdIsNot(id), s);
      }
    }
    assert forall s :: multiset(r)[s] == if s.id != id then multiset(subjects)[s] else 0 by {
      forall s ensures multiset(r)[s] == if s.id != id then multiset(subjects)[s] else 0 {
        Seqs.FilterCount(subjects, IdIsNot(id), s);
      }
    }
    r
  }

  /** Deleting an id from a list that does not hold it changes nothing. */
  lemma {:induction false} WithoutAbsentId(subjects: seq<Subject>, id: string)
    requires forall k :: 0 <= k < |subjects| ==> subjects[k].id != id
    ensures WithoutId(subjects, id) == subjects
  {
    if subjects != [] {
      WithoutAbsentId(subjects[1..], id);
      assert Seqs.Filter(subjects, IdIsNot(id)) == [subjects[0]] + Seqs.Filter(subjects[1..], IdIsNot(id));
    }
  }

  /** Deleting a subject just added removes it again when its id was new. */
  lemma DeleteUndoesAdd(subjects: seq<Subject>, added: Subject)
    requires forall k :: 0 <= k < |subjects| ==> subjects[k].id != added.id
    ensures WithoutId(subjects + [added], added.id) == subjects
  {
    Seqs.FilterAppend(subjects, [added], IdIsNot(added.id));
    WithoutAbsentId(subjects, added.id);
    assert Seqs.Filter([added], IdIsNot(added.id)) == [];
  }

  /** The form state of the new-project modal. */
  class Form {
    /** `user.key`, or `None` when no one is signed in. */
    const userKey: Option<string>
    var formInfo: ProjectForm
    var subject: Subject

    constructor (userKey: Option<string>)
      ensures this.userKey == userKey && formInfo == InitialForm && subject == BlankSubject
    {
      this.userKey := userKey;
      formInfo := InitialForm;
      subject := BlankSubject;
    }

    /** Typing in the subject box: the title changes and the draft gets a fresh id. */
    method SubjectTextChange(title: string, freshId: string)
      modifies this`subject
      ensures subject == old(subject).(title := title, id := freshId)
    {
      subject := subject.(title := title, id := freshId);
    }

    /** Whether "Add Subject" is enabled. */
    function CanAddSubject(): (r: bool)
      reads this
      ensures r <==> HasVisible(subject.title)
    {
      IsFilled(subject)
    }

    /** "Add Subject": the draft goes to the end of the list and a cleared draft replaces it. */
    method AddSubject()
      modifies this`formInfo, this`subject
      ensures formInfo.subjects == old(formInfo.subjects) + [old(subject)]
      ensures formInfo == old(formInfo).(subjects := formInfo.subjects)
      ensures subject == ClearedSubject && subject.title == ""
    {
      formInfo := formInfo.(subjects := formInfo.subjects + [subject]);
      subject := ClearedSubject;
    }

    /** "Delete" on a listed subject: every subject with that id goes, the others keep their order. */
    method DeleteSubject(id: string)
      modifies this`formInfo
      ensures formInfo.subjects == WithoutId(old(formInfo.subjects), id)
      ensures formInfo == old(formInfo).(subjects := formInfo.subjects)
    {
      formInfo := formInfo.(subjects := WithoutId(formInfo.subjects, id));
    }

    /**
     * "Post": the project is written with the signed-in user as creator and the
     * time of posting; after a successful write the form and the draft are reset.
     * Without a user, or when the write fails, nothing changes.
     */
    method PostNewProject(now: int, writeOk: bool) returns (written: Option<ProjectForm>)
      modifies this`formInfo, this`subject
      ensures userKey.None? ==> written.None?
      ensures userKey.Some? ==>
                written == Some(old(formInfo).(creatorId := userKey.value, creationDate := now))
      ensures userKey.Some? && writeOk ==> formInfo == InitialForm && subject == BlankSubject
      ensures userKey.None? || !writeOk ==> formInfo == old(formInfo) && subject == old(subject)
    {
      written := None;
      if userKey.None? {
        return;
      }
      var updated := formInfo.(creatorId := userKey.value, creationDate := now);
      written := Some(updated);
      if writeOk {
        formInfo := InitialForm;
        subject := BlankSubject;
      }
    }
  }
}
