/**
 * The poll page of the anonymous voting flow: the tally it derives from the fetched
 * options and votes, the total, the named-voter chips, and the one-vote-per-session guard.
 */
module PollView {
  import opened Wrappers
  import opened Text
  import opened Seqs
  import opened Records

  /** An option together with the fetched votes for it (`OptionWithVotes`). */
  datatype OptionTally = OptionTally(option: PollOption, voteCount: nat, votes: seq<Vote>)

  function WithCount(k: nat): OptionTally -> bool {
    (w: OptionTally) => w.voteCount == k
  }

  function Ids(options: seq<PollOption>): (r: seq<string>)
    ensures |r| == |options| && forall i :: 0 <= i < |r| ==> r[i] == options[i].id
  {
    if options == [] then [] else [options[0].id] + Ids(options[1..])
  }

  predicate DistinctIds(options: seq<PollOption>) {
    forall i, j :: 0 <= i < j < |options| ==> options[i].id != options[j].id
  }

  function InIds(ids: seq<string>): Vote -> bool {
    (v: Vote) => v.optionId in ids
  }

  /** One option's entry: its votes are the fetched votes naming it, its count their number. */
  function TallyOf(o: PollOption, votes: seq<Vote>): OptionTally {
    var mine := Filter(ForOption(o.id), votes);
    OptionTally(o, |mine|, mine)
  }

  /** The `optionsResponse.data.map(...)` step: one entry per fetched option, in fetched order. */
  function Tally(options: seq<PollOption>, votes: seq<Vote>): (r: seq<OptionTally>)
    ensures |r| == |options|
    ensures forall i :: 0 <= i < |r| ==> r[i].option == options[i] && r[i].voteCount == |r[i].votes|
  {
    if options == [] then [] else [TallyOf(options[0], votes)] + Tally(options[1..], votes)
  }

  predicate SortedByVotes(ws: seq<OptionTally>) {
    forall i, j :: 0 <= i < j < |ws| ==> ws[i].voteCount >= ws[j].voteCount
  }

  /** Places `x` before the first entry with no more votes than it (ties keep `x` first). */
  function Insert(x: OptionTally, s: seq<OptionTally>): (r: seq<OptionTally>)
    ensures |r| == |s| + 1
    ensures multiset(r) == multiset(s) + multiset{x}
    ensures r[0] == x || (s != [] && r[0] == s[0])
  {
    if s == [] || s[0].voteCount <= x.voteCount then [x] + s
    else
      assert s == [s[0]] + s[1..];
      [s[0]] + Insert(x, s[1..])
  }

  lemma ConsSorted(a: OptionTally, r: seq<OptionTally>)
    requires SortedByVotes(r)
    requires r != [] ==> a.voteCount >= r[0].voteCount
    ensures SortedByVotes([a] + r)
  {
    var t := [a] + r;
    forall i, j | 0 <= i < j < |t| ensures t[i].voteCount >= t[j].voteCount {
      if i == 0 {
        assert t[j] == r[j - 1];
        assert r[0].voteCount >= r[j - 1].voteCount || j == 1;
      } else {
        assert t[i] == r[i - 1] && t[j] == r[j - 1];
      }
    }
  }

  lemma {:induction false} InsertSorted(x: OptionTally, s: seq<OptionTally>)
    requires SortedByVotes(s)
    ensures SortedByVotes(Insert(x, s))
  {
    if s == [] || s[0].voteCount <= x.voteCount {
      ConsSorted(x, s);
    } else {
      var tail := s[1..];
      assert SortedByVotes(tail) by {
        forall i, j | 0 <= i < j < |tail| ensures tail[i].voteCount >= tail[j].voteCount {
          assert tail[i] == s[i + 1] && tail[j] == s[j + 1];
        }
      }
      InsertSorted(x, tail);
      var rest := Insert(x, tail);
      assert tail != [] ==> tail[0] == s[1];
      ConsSorted(s[0], rest);
    }
  }

  /**
   * `sort((a, b) => b.voteCount - a.voteCount)`: JavaScript's sort is stable, so this is
   * a stable sort by non-increasing vote count, written as an insertion sort.
   */
  function SortByVotes(s: seq<OptionTally>): (r: seq<OptionTally>)
    ensures |r| == |s|
    ensures multiset(r) == multiset(s)
    ensures SortedByVotes(r)
  {
    if s == [] then []
    else
      assert s == [s[0]] + s[1..];
      InsertSorted(s[0], SortByVotes(s[1..]));
      Insert(s[0], SortByVotes(s[1..]))
  }

  /** The list the page displays after `loadPollData`. */
  function LoadPollData(options: seq<PollOption>, votes: seq<Vote>): (r: seq<OptionTally>)
    ensures |r| == |options| && SortedByVotes(r)
  {
    SortByVotes(Tally(options, votes))
  }

  /** `totalVotes`: the sum of the displayed per-option counts. */
  function TotalVotes(ws: seq<OptionTally>): (r: nat)
    ensures forall i :: 0 <= i < |ws| ==> ws[i].voteCount <= r
  {
    if ws == [] then 0
    else
      var rest := TotalVotes(ws[1..]);
      assert forall i :: 1 <= i < |ws| ==> ws[i] == ws[1..][i - 1];
      ws[0].voteCount + rest
  }

  function OptionsOf(ws: seq<OptionTally>): seq<PollOption> {
    if ws == [] then [] else [ws[0].option] + OptionsOf(ws[1..])
  }

  function HasVoterName(): Vote -> bool {
    (v: Vote) => Truthy(v.voterName)
  }

  function NamedFor(id: string): Vote -> bool {
    (v: Vote) => v.optionId == id && Truthy(v.voterName)
  }

  /** The chips under an option: `option.votes.filter(v => v.voter_name)`. */
  function NamedVoters(w: OptionTally): (r: seq<Vote>)
    ensures |r| <= |w.votes|
    ensures forall v :: v in r ==> v in w.votes && v.voterName.Some? && v.voterName.value != ""
  {
    Filter(HasVoterName(), w.votes)
  }

  /** `voterName.trim() || null`: the trimmed name, or no name when nothing but white space was typed. */
  function NormalizedVoterName(name: string): (r: Option<string>)
    ensures r.None? <==> AllWhite(name)
    ensures r.Some? ==> r.value == Trim(name) && r.value != ""
    ensures r.Some? ==> !IsWhite(r.value[0]) && !IsWhite(r.value[|r.value| - 1])
  {
    BlankIffAllWhite(name);
    TrimIsInfix(name);
    var t := Trim(name);
    if t == "" then None else Some(t)
  }

  // ----- Properties of the tally -----

  /** Each entry's count is the number of fetched vote rows naming that option, and its vote
      list holds exactly those rows, as often as they were fetched. */
  lemma TallyCounts(options: seq<PollOption>, votes: seq<Vote>, i: nat, v: Vote)
    requires i < |options|
    ensures Tally(options, votes)[i].voteCount == |IndicesWhere(ForOption(options[i].id), votes)|
    ensures multiset(Tally(options, votes)[i].votes)[v]
            == if v.optionId == options[i].id then multiset(votes)[v] else 0
  {
    TallyAt(options, votes, i);
    FilterCount(ForOption(options[i].id), votes);
    FilterMultiset(ForOption(options[i].id), votes, v);
  }

  lemma {:induction false} TallyAt(options: seq<PollOption>, votes: seq<Vote>, i: nat)
    requires i < |options|
    ensures Tally(options, votes)[i] == TallyOf(options[i], votes)
  {
    if i > 0 {
      TallyAt(options[1..], votes, i - 1);
    }
  }

  /** Sorting keeps, for each vote count, the entries with that count in their fetched order. */
  lemma {:induction false} SortIsStable(s: seq<OptionTally>, k: nat)
    ensures Filter(WithCount(k), SortByVotes(s)) == Filter(WithCount(k), s)
  {
    if s != [] {
      SortIsStable(s[1..], k);
      InsertIsStable(s[0], SortByVotes(s[1..]), k);
    }
  }

  lemma {:induction false} InsertIsStable(x: OptionTally, s: seq<OptionTally>, k: nat)
    ensures Filter(WithCount(k), Insert(x, s)) == Filter(WithCount(k), [x] + s)
  {
    if s != [] && s[0].voteCount > x.voteCount {
      InsertIsStable(x, s[1..], k);
      assert ([x] + s)[1..] == s;
      assert ([x] + s[1..])[1..] == s[1..];
    }
  }

  /** The displayed options are a permutation of the fetched options. */
  lemma {:induction false} SortKeepsOptions(s: seq<OptionTally>)
    ensures multiset(OptionsOf(SortByVotes(s))) == multiset(OptionsOf(s))
  {
    if s != [] {
      SortKeepsOptions(s[1..]);
      InsertKeepsOptions(s[0], SortByVotes(s[1..]));
    }
  }

  lemma {:induction false} InsertKeepsOptions(x: OptionTally, s: seq<OptionTally>)
    ensures multiset(OptionsOf(Insert(x, s))) == multiset(OptionsOf(s)) + multiset{x.option}
  {
    if s == [] || s[0].voteCount <= x.voteCount {
      assert OptionsOf([x] + s) == [x.option] + OptionsOf(s) by {
        assert ([x] + s)[1..] == s;
      }
    } else {
      InsertKeepsOptions(x, s[1..]);
      var rest := Insert(x, s[1..]);
      assert ([s[0]] + rest)[1..] == rest;
      assert OptionsOf(Insert(x, s)) == [s[0].option] + OptionsOf(rest);
      assert OptionsOf(s) == [s[0].option] + OptionsOf(s[1..]);
    }
  }

  lemma {:induction false} OptionsOfTally(options: seq<PollOption>, votes: seq<Vote>)
    ensures OptionsOf(Tally(options, votes)) == options
  {
    if options != [] {
      OptionsOfTally(options[1..], votes);
    }
  }

  /** The displayed list: sorted by non-increasing count, a permutation of the fetched options'
      entries, and stable among equal counts. */
  lemma LoadPollDataSpec(options: seq<PollOption>, votes: seq<Vote>, k: nat)
    ensures SortedByVotes(LoadPollData(options, votes))
    ensures multiset(LoadPollData(options, votes)) == multiset(Tally(options, votes))
    ensures multiset(OptionsOf(LoadPollData(options, votes))) == multiset(options)
    ensures Filter(WithCount(k), LoadPollData(options, votes)) == Filter(WithCount(k), Tally(options, votes))
  {
    SortKeepsOptions(Tally(options, votes));
    OptionsOfTally(options, votes);
    SortIsStable(Tally(options, votes), k);
  }

  lemma {:induction false} TotalOfInsert(x: OptionTally, s: seq<OptionTally>)
    ensures TotalVotes(Insert(x, s)) == x.voteCount + TotalVotes(s)
  {
    if s != [] && s[0].voteCount > x.voteCount {
      TotalOfInsert(x, s[1..]);
    }
  }

  lemma {:induction false} TotalOfSort(s: seq<OptionTally>)
    ensures TotalVotes(SortByVotes(s)) == TotalVotes(s)
  {
    if s != [] {
      TotalOfSort(s[1..]);
      TotalOfInsert(s[0], SortByVotes(s[1..]));
    }
  }

  lemma {:induction false} TotalOfTally(options: seq<PollOption>, votes: seq<Vote>)
    requires DistinctIds(options)
    ensures TotalVotes(Tally(options, votes)) == |Filter(InIds(Ids(options)), votes)|
  {
    if options == [] {
      FilterNone(InIds([]), votes);
    } else {
      var rest := options[1..];
      assert DistinctIds(rest) by {
        forall i, j | 0 <= i < j < |rest| ensures rest[i].id != rest[j].id {
          assert rest[i] == options[i + 1] && rest[j] == options[j + 1];
        }
      }
      TotalOfTally(rest, votes);
      var ids := Ids(options);
      assert ids == [options[0].id] + Ids(rest);
      assert options[0].id !in Ids(rest) by {
        forall j | 0 <= j < |rest| ensures Ids(rest)[j] != options[0].id {
          assert rest[j] == options[j + 1];
        }
      }
      FilterDisjoint(ForOption(options[0].id), InIds(Ids(rest)), InIds(ids), votes);
    }
  }

  /** `totalVotes` is the number of fetched votes that name a displayed option: never more than
      the fetched rows, and all of them when every vote names one of the options. */
  lemma TotalVotesSpec(options: seq<PollOption>, votes: seq<Vote>)
    requires DistinctIds(options)
    ensures TotalVotes(LoadPollData(options, votes)) <= |votes|
    ensures (forall v :: v in votes ==> v.optionId in Ids(options))
            ==> TotalVotes(LoadPollData(options, votes)) == |votes|
  {
    TotalOfSort(Tally(options, votes));
    TotalOfTally(options, votes);
    FilterKeepsAll(InIds(Ids(options)), votes);
  }

  /** The chips under an option are exactly the fetched votes for it that carry a non-empty
      name, in fetched order. */
  lemma NamedVotersSpec(o: PollOption, votes: seq<Vote>)
    ensures NamedVoters(TallyOf(o, votes)) == Filter(NamedFor(o.id), votes)
    ensures forall v :: v in NamedVoters(TallyOf(o, votes)) ==> v.voterName.Some? && v.voterName.value != ""
  {
    FilterFilter(HasVoterName(), ForOption(o.id), NamedFor(o.id), votes);
  }

  /** A name typed by the voter becomes a chip exactly when it is not all white space. */
  lemma NamedVoteShowsChip(pollId: string, optionId: string, name: string)
    ensures HasVoterName()(Vote(pollId, optionId, NormalizedVoterName(name), None)) <==> !AllWhite(name)
  {
  }

  // ----- The voting session on the page -----

  /** The page's voting state, with the poll's rows of the `votes` table it writes to. */
  class PollSession {
    const pollId: string
    var votes: seq<Vote>
    var hasVoted: bool
    var showNameInput: bool
    var voterName: string
    var selectedOption: Option<string>

    constructor (pollId: string, votes: seq<Vote>)
      ensures this.pollId == pollId && this.votes == votes
      ensures !hasVoted && !showNameInput && voterName == "" && selectedOption == None
    {
      this.pollId := pollId;
      this.votes := votes;
      hasVoted := false;
      showNameInput := false;
      voterName := "";
      selectedOption := None;
    }

    /** `initiateVote`: remember the choice and ask for a name. */
    method InitiateVote(optionId: string)
      modifies this
      ensures selectedOption == Some(optionId) && showNameInput
      ensures votes == old(votes) && hasVoted == old(hasVoted) && voterName == old(voterName)
    {
      selectedOption := Some(optionId);
      showNameInput := true;
    }

    /** The Cancel button of the name prompt. */
    method CancelVote()
      modifies this
      ensures !showNameInput && selectedOption == None && voterName == ""
      ensures votes == old(votes) && hasVoted == old(hasVoted)
    {
      showNameInput := false;
      selectedOption := None;
      voterName := "";
    }

    /**
     * `handleVote`: once this session has voted, nothing is inserted and nothing changes.
     * Otherwise one row carrying the normalised name is inserted; `insertOk` is the store's
     * answer. Only a successful insert marks the session as voted; a failure changes nothing.
     */
    method HandleVote(optionId: string, insertOk: bool)
      modifies this
      ensures old(hasVoted) || !insertOk ==> unchanged(this)
      ensures !old(hasVoted) && insertOk ==>
                && votes == old(votes) + [Vote(pollId, optionId, NormalizedVoterName(old(voterName)), None)]
                && hasVoted && !showNameInput
                && voterName == old(voterName) && selectedOption == old(selectedOption)
    {
      if hasVoted {
        return;
      }
      var row := Vote(pollId, optionId, NormalizedVoterName(voterName), None);
      if !insertOk {
        return;
      }
      votes := votes + [row];
      hasVoted := true;
      showNameInput := false;
    }

    /** `submitVote`: votes for the remembered option, if one is remembered. */
    method SubmitVote(insertOk: bool)
      modifies this
      ensures !Truthy(old(selectedOption)) || old(hasVoted) || !insertOk ==> unchanged(this)
      ensures Truthy(old(selectedOption)) && !old(hasVoted) && insertOk ==>
                && votes == old(votes) + [Vote(pollId, old(selectedOption).value, NormalizedVoterName(old(voterName)), None)]
                && hasVoted && !showNameInput
                && voterName == old(voterName) && selectedOption == old(selectedOption)
    {
      if Truthy(selectedOption) {
        HandleVote(selectedOption.value, insertOk);
      }
    }
  }
}
