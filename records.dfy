/**
 * The rows of the remote tables, as the pages receive them. Timestamps are
 * integers; a nullable column is an `Option`.
 */
module Records {
  import opened Wrappers

  /** The global site status held by the single `site_settings` row. */
  datatype Status = Waiting | Voting | Ended

  /** A row of `site_settings`. */
  datatype SettingsRow = SettingsRow(id: int, status: Status)

  /** A row of `polls` (the columns the pages use). */
  datatype PollRow = PollRow(
    id: int,
    title: string,
    description: string,
    isActive: bool,
    startAt: Option<int>,
    endAt: Option<int>)

  /** A row of `options`; `voteCount` is the counter the server-side increment maintains. */
  datatype PollOption = PollOption(id: int, pollId: int, text: string, voteCount: int)

  /** A poll fetched together with the option rows that point to it. */
  datatype Poll = Poll(row: PollRow, options: seq<PollOption>)

  /** A row of `votes`. */
  datatype VoteRow = VoteRow(pollId: int, optionId: int, voterIdentity: string)
}
