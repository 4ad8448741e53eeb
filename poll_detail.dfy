/**
 * The signed-in poll page: it folds the joined poll/option rows into a map of options,
 * casts and retracts votes keyed by the current user, adds options owned by that user,
 * and shows edit controls only to owners.
 */
module PollDetail {
  import opened Wrappers
  import opened Text
  import opened Seqs
  import opened Records

  /** The option columns of one joined row (`PollData`); every option column may be null. */
  datatype JoinedRow = JoinedRow(optionId: Option<string>, optionName: Option<string>, optionUserId: Option<string>)

  /** An entry of the options map. */
  datatype DetailOption = DetailOption(id: string, name: string, userId: Option<string>, voteCount: nat, hasVoted: bool)

  /** A JavaScript `Map`: its entries and its keys in insertion order. */
  datatype OptionsIndex = OptionsIndex(entries: map<string, DetailOption>, order: seq<string>)

  const Empty := OptionsIndex(map[], [])

  /** `row.option_id && row.option_name`: both present and non-empty. */
  predicate Qualifies(r: JoinedRow) {
    Truthy(r.optionId) && Truthy(r.optionName)
  }

  function QualifyingRow(): JoinedRow -> bool {
    (r: JoinedRow) => Qualifies(r)
  }

  function QualifiesFor(k: string): JoinedRow -> bool {
    (r: JoinedRow) => Qualifies(r) && r.optionId.value == k
  }

  /** The entry a row creates: no votes counted yet, not voted, owned by the row's option creator. */
  function NewEntry(r: JoinedRow): DetailOption
    requires Qualifies(r)
  {
    DetailOption(r.optionId.value, r.optionName.value, r.optionUserId, 0, false)
  }

  /** One `forEach` step: a qualifying row whose id is not yet a key adds an entry. */
  function Step(acc: OptionsIndex, r: JoinedRow): OptionsIndex {
    if Qualifies(r) && r.optionId.value !in acc.entries then
      OptionsIndex(acc.entries[r.optionId.value := NewEntry(r)], acc.order + [r.optionId.value])
    else acc
  }

  function FoldFrom(acc: OptionsIndex, rows: seq<JoinedRow>): OptionsIndex
    decreases |rows|
  {
    if rows == [] then acc else FoldFrom(Step(acc, rows[0]), rows[1..])
  }

  /** The ids of the qualifying rows, in row order, repeats included. */
  function QualifyingIds(rows: seq<JoinedRow>): seq<string>
    decreases |rows|
  {
    if rows == [] then []
    else
      var last := rows[|rows| - 1];
      QualifyingIds(rows[..|rows| - 1]) + (if Qualifies(last) then [last.optionId.value] else [])
  }

  /** The option ids in the order they first appear among the qualifying rows. */
  function FirstSeenIds(rows: seq<JoinedRow>): seq<string> {
    Dedup(QualifyingIds(rows))
  }

  /** The map `fetchPollDetails` builds from the joined rows; its keys are listed in the order
      they first appear. */
  function OptionsMap(rows: seq<JoinedRow>): (r: OptionsIndex)
    ensures r.order == FirstSeenIds(rows)
  {
    FoldOrder(rows);
    FoldFrom(Empty, rows)
  }

  /** Keys listed once each in insertion order, and every entry stored under its own id. */
  ghost predicate WellFormed(m: OptionsIndex) {
    && (forall i, j :: 0 <= i < j < |m.order| ==> m.order[i] != m.order[j])
    && (forall k :: k in m.entries <==> k in m.order)
    && (forall k :: k in m.entries ==> m.entries[k].id == k)
  }

  /** The `forEach` over the rows, mutating the map in place. */
  method BuildOptionsMap(rows: seq<JoinedRow>) returns (m: OptionsIndex)
    ensures m == OptionsMap(rows)
  {
    var entries: map<string, DetailOption> := map[];
    var order: seq<string> := [];
    var i := 0;
    while i < |rows|
      invariant 0 <= i <= |rows|
      invariant FoldFrom(OptionsIndex(entries, order), rows[i..]) == OptionsMap(rows)
    {
      var row := rows[i];
      assert rows[i..][1..] == rows[i + 1..];
      if Truthy(row.optionId) && Truthy(row.optionName) {
        if row.optionId.value !in entries {
          entries := entries[row.optionId.value := NewEntry(row)];
          order := order + [row.optionId.value];
        }
      }
      i := i + 1;
    }
    m := OptionsIndex(entries, order);
  }

  lemma {:induction false} FoldFromAt(acc: OptionsIndex, rows: seq<JoinedRow>, k: string)
    ensures k in FoldFrom(acc, rows).entries <==> k in acc.entries || Find(QualifiesFor(k), rows).Some?
    ensures k in acc.entries ==> FoldFrom(acc, rows).entries[k] == acc.entries[k]
    ensures k !in acc.entries && Find(QualifiesFor(k), rows).Some? ==>
              FoldFrom(acc, rows).entries[k] == NewEntry(Find(QualifiesFor(k), rows).value)
    decreases |rows|
  {
    if rows != [] {
      FoldFromAt(Step(acc, rows[0]), rows[1..], k);
    }
  }

  lemma {:induction false} FoldKeepsWellFormed(acc: OptionsIndex, rows: seq<JoinedRow>)
    requires WellFormed(acc)
    ensures WellFormed(FoldFrom(acc, rows))
    decreases |rows|
  {
    if rows != [] {
      var next := Step(acc, rows[0]);
      assert WellFormed(next) by {
        if next != acc {
          var id := rows[0].optionId.value;
          assert id !in acc.order;
          forall i, j | 0 <= i < j < |next.order| ensures next.order[i] != next.order[j] {
            if j == |acc.order| {
              assert next.order[i] == acc.order[i];
            }
          }
        }
      }
      FoldKeepsWellFormed(next, rows[1..]);
    }
  }

  /** Folding one more row is one more step. */
  lemma {:induction false} FoldFromSnoc(acc: OptionsIndex, rows: seq<JoinedRow>, r: JoinedRow)
    ensures FoldFrom(acc, rows + [r]) == Step(FoldFrom(acc, rows), r)
    decreases |rows|
  {
    if rows == [] {
      assert [] + [r] == [r];
      assert [r][1..] == [];
    } else {
      assert (rows + [r])[0] == rows[0];
      assert (rows + [r])[1..] == rows[1..] + [r];
      FoldFromSnoc(Step(acc, rows[0]), rows[1..], r);
    }
  }

  /** The fold lists the keys in first-seen order. */
  lemma {:induction false} FoldOrder(rows: seq<JoinedRow>)
    ensures FoldFrom(Empty, rows).order == FirstSeenIds(rows)
    decreases |rows|
  {
    if rows != [] {
      var init := rows[..|rows| - 1];
      var r := rows[|rows| - 1];
      assert rows == init + [r];
      FoldFromSnoc(Empty, init, r);
      FoldOrder(init);
      FoldKeepsWellFormed(Empty, init);
      var ids := QualifyingIds(init);
      DedupSpec(ids);
      if Qualifies(r) {
        var s := ids + [r.optionId.value];
        assert QualifyingIds(rows) == s;
        assert s[..|s| - 1] == ids;
      } else {
        assert QualifyingIds(rows) == ids;
      }
    }
  }

  /**
   * An option id is a key exactly when some row carries it with a non-empty name; its entry
   * comes from the FIRST such row (later rows never overwrite it), starts with zero votes and
   * not voted, and is owned by that row's option creator. Keys are listed once, in order of
   * first appearance.
   */
  lemma OptionsMapSpec(rows: seq<JoinedRow>, k: string)
    ensures WellFormed(OptionsMap(rows))
    ensures OptionsMap(rows).order == FirstSeenIds(rows)
    ensures k in OptionsMap(rows).entries <==> exists i :: 0 <= i < |rows| && QualifiesFor(k)(rows[i])
    ensures k in OptionsMap(rows).entries ==>
              exists i :: 0 <= i < |rows| && QualifiesFor(k)(rows[i])
                          && (forall j :: 0 <= j < i ==> !QualifiesFor(k)(rows[j]))
                          && OptionsMap(rows).entries[k] == NewEntry(rows[i])
                          && OptionsMap(rows).entries[k].voteCount == 0
                          && !OptionsMap(rows).entries[k].hasVoted
                          && OptionsMap(rows).entries[k].userId == rows[i].optionUserId
  {
    FoldFromAt(Empty, rows, k);
    FoldKeepsWellFormed(Empty, rows);
    var f := Find(QualifiesFor(k), rows);
    if f.Some? {
      var i :| 0 <= i < |rows| && rows[i] == f.value && QualifiesFor(k)(rows[i])
               && forall j :: 0 <= j < i ==> !QualifiesFor(k)(rows[j]);
    }
  }

  /** Rows with a null or empty option id or name contribute nothing. */
  lemma {:induction false} NonQualifyingRowsIgnored(acc: OptionsIndex, rows: seq<JoinedRow>)
    ensures FoldFrom(acc, rows) == FoldFrom(acc, Filter(QualifyingRow(), rows))
    decreases |rows|
  {
    if rows != [] {
      NonQualifyingRowsIgnored(Step(acc, rows[0]), rows[1..]);
      if !Qualifies(rows[0]) {
        NonQualifyingRowsIgnored(acc, rows[1..]);
      }
    }
  }

  // ----- Votes keyed by the signed-in user -----

  function NotCastBy(optionId: string, userId: string): Vote -> bool {
    (v: Vote) => !(v.optionId == optionId && v.userId == Some(userId))
  }

  /** `handleVote`: inserts one row for the poll and option carrying the current user's id. */
  function CastVote(table: seq<Vote>, pollId: string, optionId: string, user: AuthUser): (r: seq<Vote>)
    ensures |r| == |table| + 1 && r[..|table|] == table
    ensures r[|table|].optionId == optionId && r[|table|].userId == Some(user.id)
  {
    table + [Vote(pollId, optionId, None, Some(user.id))]
  }

  /** `handleUnvote`: deletes the rows matching both the option id and the current user. */
  function Unvote(table: seq<Vote>, optionId: string, user: AuthUser): (r: seq<Vote>)
    ensures |r| <= |table|
    ensures forall w :: w in r ==> w in table && !(w.optionId == optionId && w.userId == Some(user.id))
  {
    Filter(NotCastBy(optionId, user.id), table)
  }

  /** Casting raises the chosen option's count by one and leaves every other option's alone. */
  lemma CastVoteCounts(table: seq<Vote>, pollId: string, optionId: string, user: AuthUser, o: string)
    ensures |Filter(ForOption(o), CastVote(table, pollId, optionId, user))|
            == |Filter(ForOption(o), table)| + (if o == optionId then 1 else 0)
  {
    FilterConcat(ForOption(o), table, [Vote(pollId, optionId, None, Some(user.id))]);
  }

  /** Retracting removes every row of this user for this option, and no other row. */
  lemma UnvoteSpec(table: seq<Vote>, optionId: string, user: AuthUser, v: Vote)
    ensures forall w :: w in Unvote(table, optionId, user) ==> !(w.optionId == optionId && w.userId == Some(user.id))
    ensures multiset(Unvote(table, optionId, user))[v]
            == if v.optionId == optionId && v.userId == Some(user.id) then 0 else multiset(table)[v]
  {
    FilterMultiset(NotCastBy(optionId, user.id), table, v);
  }

  /** Retracting right after casting, when the user had no vote on that option, restores the table. */
  lemma CastThenUnvote(table: seq<Vote>, pollId: string, optionId: string, user: AuthUser)
    requires forall w :: w in table ==> !(w.optionId == optionId && w.userId == Some(user.id))
    ensures Unvote(CastVote(table, pollId, optionId, user), optionId, user) == table
  {
    var row := Vote(pollId, optionId, None, Some(user.id));
    FilterConcat(NotCastBy(optionId, user.id), table, [row]);
    FilterKeepsAll(NotCastBy(optionId, user.id), table);
  }

  // ----- Options added on the page, and edit rights -----

  /** `handleAddOption`'s insert: the typed name trimmed, owned by the current user. */
  function AddedOption(pollId: string, newOption: string, user: AuthUser): (r: OptionInsert)
    ensures r.pollId == pollId && r.userId == user.id
    ensures Trim(r.name) == r.name
    ensures |r.name| <= |newOption|
  {
    TrimIdempotent(newOption);
    OptionInsert(pollId, Trim(newOption), user.id)
  }

  /** The Add Option button is enabled when the trimmed name is not empty and no add is running. */
  predicate CanAddOption(newOption: string, addingOption: bool) {
    !IsBlank(newOption) && !addingOption
  }

  lemma AddedOptionNamed(pollId: string, newOption: string, addingOption: bool, user: AuthUser)
    requires CanAddOption(newOption, addingOption)
    ensures AddedOption(pollId, newOption, user).name != ""
    ensures !AllWhite(newOption)
  {
    BlankIffAllWhite(newOption);
  }

  /** `canEditOption`: a signed-in user who created the option; an option with no owner is never editable. */
  function CanEditOption(user: Option<AuthUser>, option: DetailOption): (r: bool)
    ensures option.userId.None? ==> !r
    ensures r <==> user.Some? && option.userId == Some(user.value.id)
  {
    user.Some? && option.userId.Some? && option.userId.value == user.value.id
  }

  /** `canEditPoll`: a signed-in user, a loaded poll, and that user owns it. */
  function CanEditPoll(user: Option<AuthUser>, poll: Option<Poll>): (r: bool)
    ensures r <==> user.Some? && poll.Some? && poll.value.userId == Some(user.value.id)
  {
    user.Some? && poll.Some? && poll.value.userId.Some? && poll.value.userId.value == user.value.id
  }

  /** Edit rights are exclusive: two users who may both edit the same option are the same user. */
  lemma EditRightsExclusive(u1: AuthUser, u2: AuthUser, option: DetailOption, poll: Poll)
    ensures CanEditOption(Some(u1), option) && CanEditOption(Some(u2), option) ==> u1 == u2
    ensures CanEditPoll(Some(u1), Some(poll)) && CanEditPoll(Some(u2), Some(poll)) ==> u1 == u2
  {
  }
}
