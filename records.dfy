/** The rows of the poll tables (`polls`, `options`, `votes`), without their timestamps. */
module Records {
  import opened Wrappers

  datatype Poll = Poll(id: string, title: string, userId: Option<string>)

  /** An option row; `userId` is the creator, added to the table by a later migration. */
  datatype PollOption = PollOption(id: string, pollId: string, name: string, userId: Option<string>)

  /** A vote row; `voterName` is the optional display name, `userId` the signed-in voter. */
  datatype Vote = Vote(pollId: string, optionId: string, voterName: Option<string>, userId: Option<string>)

  /** The columns written when a poll is inserted; the store assigns its id. */
  datatype PollInsert = PollInsert(title: string, userId: string)

  /** The columns written when an option is inserted; the store assigns its id. */
  datatype OptionInsert = OptionInsert(pollId: string, name: string, userId: string)

  /** The signed-in user, as far as the core needs it. */
  datatype AuthUser = AuthUser(id: string)

  /** Selects the votes cast for one option. */
  function ForOption(id: string): Vote -> bool {
    (v: Vote) => v.optionId == id
  }
}
