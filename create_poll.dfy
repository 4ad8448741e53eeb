/**
 * The poll creation form: a draft title and a list of option strings that never has fewer
 * than two entries, and the submission that validates the draft and inserts the poll and
 * its options.
 */
module CreatePoll {
  import opened Text
  import opened Seqs
  import opened Records
  import opened Wrappers

  /** The minimum number of option entries the draft keeps, and of non-blank options a poll needs. */
  const MinOptions: nat := 2

  /** The draft starts with two empty option strings. */
  function InitialOptions(): (r: seq<string>)
    ensures |r| == MinOptions && forall i :: 0 <= i < |r| ==> r[i] == ""
  {
    ["", ""]
  }

  /** `addOption`: one more empty entry at the end. */
  function AddOption(options: seq<string>): (r: seq<string>)
    ensures |r| == |options| + 1 && r[..|options|] == options && r[|options|] == ""
  {
    options + [""]
  }

  /** `options.filter((_, i) => i !== index)`. */
  function ExceptAt(s: seq<string>, index: int): (r: seq<string>)
    ensures 0 <= index < |s| ==> r == s[..index] + s[index + 1..]
    ensures !(0 <= index < |s|) ==> r == s
  {
    if s == [] then []
    else
      var rest := ExceptAt(s[1..], index - 1);
      assert s == [s[0]] + s[1..];
      if index == 0 then rest else [s[0]] + rest
  }

  /** `removeOption`: drops entry `index`, but only while more than two entries remain. */
  function RemoveOption(options: seq<string>, index: int): (r: seq<string>)
    ensures |options| <= MinOptions ==> r == options
    ensures |options| > MinOptions && 0 <= index < |options| ==>
              r == options[..index] + options[index + 1..]
    ensures |options| >= MinOptions ==> |r| >= MinOptions
  {
    if |options| > MinOptions then ExceptAt(options, index) else options
  }

  /** `updateOption`: entry `index` becomes `value`; the length and every other entry stay. */
  function UpdateOption(options: seq<string>, index: nat, value: string): (r: seq<string>)
    requires index < |options|
    ensures |r| == |options| && r[index] == value
    ensures forall j :: 0 <= j < |r| && j != index ==> r[j] == options[j]
  {
    options[index := value]
  }

  function NonBlank(): string -> bool {
    (o: string) => !IsBlank(o)
  }

  /** `options.filter(o => o.trim())`. */
  function ValidOptions(options: seq<string>): seq<string> {
    Filter(NonBlank(), options)
  }

  /** The submit guard: a non-blank title and at least two non-blank options. An accepted
      draft has a title that is not all white space and at least two entries. */
  function SubmissionAccepted(title: string, options: seq<string>): (r: bool)
    ensures r ==> !AllWhite(title) && |options| >= MinOptions
  {
    BlankIffAllWhite(title);
    !IsBlank(title) && |ValidOptions(options)| >= MinOptions
  }

  function InsertsFor(names: seq<string>, pollId: string, userId: string): (r: seq<OptionInsert>)
    ensures |r| == |names|
    ensures forall i :: 0 <= i < |r| ==> r[i] == OptionInsert(pollId, Trim(names[i]), userId)
  {
    if names == [] then [] else [OptionInsert(pollId, Trim(names[0]), userId)] + InsertsFor(names[1..], pollId, userId)
  }

  /** The option rows inserted for a new poll: the non-blank entries in draft order, trimmed. */
  function OptionInserts(options: seq<string>, pollId: string, userId: string): (r: seq<OptionInsert>)
    ensures |r| == |ValidOptions(options)| <= |options|
    ensures forall x :: x in r ==> x.pollId == pollId && x.userId == userId && x.name != ""
  {
    var valid := ValidOptions(options);
    var r := InsertsFor(valid, pollId, userId);
    assert forall i :: 0 <= i < |r| ==> r[i].name != "" by {
      forall i | 0 <= i < |r| ensures r[i].name != "" {
        assert valid[i] in valid;
        assert NonBlank()(valid[i]);
      }
    }
    r
  }

  /** The poll row inserted: the trimmed title, owned by the current user. */
  function PollRow(pollId: string, title: string, user: AuthUser): (r: Poll)
    ensures r.id == pollId && r.userId == Some(user.id)
    ensures Trim(r.title) == r.title
    ensures !IsBlank(title) ==> r.title != ""
  {
    TrimIdempotent(title);
    Poll(pollId, Trim(title), Some(user.id))
  }

  /** The draft's edits never leave fewer than two entries. */
  lemma DraftFloor(options: seq<string>, index: int, value: string)
    requires |options| >= MinOptions
    ensures |AddOption(options)| >= MinOptions
    ensures |RemoveOption(options, index)| >= MinOptions
    ensures 0 <= index < |options| ==> |UpdateOption(options, index, value)| >= MinOptions
  {
  }

  /**
   * The inserts of an accepted draft: at least two, each for the new poll and the same user,
   * each name non-empty and already trimmed; each one is the trimmed form of a draft entry.
   * A draft whose entries are all non-blank and trimmed is inserted as it stands.
   */
  lemma OptionInsertsSpec(title: string, options: seq<string>, pollId: string, userId: string)
    requires SubmissionAccepted(title, options)
    ensures |OptionInserts(options, pollId, userId)| >= MinOptions
    ensures forall r :: r in OptionInserts(options, pollId, userId) ==>
              r.pollId == pollId && r.userId == userId && r.name != "" && Trim(r.name) == r.name
              && exists o :: o in options && r.name == Trim(o)
    ensures (forall o :: o in options ==> !IsBlank(o) && Trim(o) == o) ==>
              |OptionInserts(options, pollId, userId)| == |options|
              && forall i :: 0 <= i < |options| ==> OptionInserts(options, pollId, userId)[i].name == options[i]
  {
    var valid := ValidOptions(options);
    var ins := OptionInserts(options, pollId, userId);
    forall r | r in ins
      ensures r.pollId == pollId && r.userId == userId && r.name != "" && Trim(r.name) == r.name
      ensures exists o :: o in options && r.name == Trim(o)
    {
      var i :| 0 <= i < |ins| && ins[i] == r;
      assert valid[i] in valid;
      TrimIdempotent(valid[i]);
    }
    if forall o :: o in options ==> !IsBlank(o) && Trim(o) == o {
      FilterKeepsAll(NonBlank(), options);
    }
  }

  /** What a submission reported. */
  datatype SubmitOutcome = Rejected | NotSignedIn | Failed | Created(pollId: string)

  /** The form's state, with the `polls` and `options` tables it inserts into. */
  class CreatePollForm {
    var title: string
    var options: seq<string>
    var isSubmitting: bool
    var polls: seq<Poll>
    var optionRows: seq<OptionInsert>

    ghost predicate Valid()
      reads this
    {
      |options| >= MinOptions
    }

    constructor (polls: seq<Poll>, optionRows: seq<OptionInsert>)
      ensures Valid()
      ensures title == "" && options == InitialOptions() && !isSubmitting
      ensures this.polls == polls && this.optionRows == optionRows
    {
      title := "";
      options := InitialOptions();
      isSubmitting := false;
      this.polls := polls;
      this.optionRows := optionRows;
    }

    method AddOptionEntry()
      requires Valid()
      modifies this`options
      ensures Valid() && options == AddOption(old(options))
    {
      options := options + [""];
    }

    method RemoveOptionEntry(index: int)
      requires Valid()
      modifies this`options
      ensures Valid() && options == RemoveOption(old(options), index)
    {
      if |options| > MinOptions {
        options := ExceptAt(options, index);
      }
    }

    method UpdateOptionEntry(index: nat, value: string)
      requires Valid() && index < |options|
      modifies this`options
      ensures Valid() && options == UpdateOption(old(options), index, value)
    {
      options := options[index := value];
    }

    /**
     * `handleSubmit`. `user` is the signed-in user, `newPollId` the store's answer to the poll
     * insert (no id: the insert failed), `optionsInsertOk` its answer to the batched option
     * insert. An option insert failing after the poll insert leaves the poll without options
     * and reports the failure.
     */
    method HandleSubmit(user: Option<AuthUser>, newPollId: Option<string>, optionsInsertOk: bool)
      returns (outcome: SubmitOutcome)
      requires Valid()
      modifies this`isSubmitting, this`polls, this`optionRows
      ensures Valid()
      ensures !SubmissionAccepted(title, options) ==> outcome == Rejected && unchanged(this)
      ensures SubmissionAccepted(title, options) ==> !isSubmitting
      ensures SubmissionAccepted(title, options) && user.None? ==>
                outcome == NotSignedIn && polls == old(polls) && optionRows == old(optionRows)
      ensures SubmissionAccepted(title, options) && user.Some? && newPollId.None? ==>
                outcome == Failed && polls == old(polls) && optionRows == old(optionRows)
      ensures SubmissionAccepted(title, options) && user.Some? && newPollId.Some? ==>
                && polls == old(polls) + [PollRow(newPollId.value, title, user.value)]
                && outcome == (if optionsInsertOk then Created(newPollId.value) else Failed)
                && optionRows == old(optionRows)
                                 + (if optionsInsertOk then OptionInserts(options, newPollId.value, user.value.id) else [])
    {
      if IsBlank(title) || |ValidOptions(options)| < MinOptions {
        return Rejected;
      }
      isSubmitting := true;
      if user.None? {
        outcome := NotSignedIn;
      } else if newPollId.None? {
        outcome := Failed;
      } else {
        var pollId := newPollId.value;
        polls := polls + [PollRow(pollId, title, user.value)];
        if optionsInsertOk {
          optionRows := optionRows + OptionInserts(options, pollId, user.value.id);
          outcome := Created(pollId);
        } else {
          outcome := Failed;
        }
      }
      isSubmitting := false;
    }
  }
}
