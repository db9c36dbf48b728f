/**
 * The voter's page: the polls shown for the current instant, the map from
 * poll to the option this voter chose, the client-side vote gate with its
 * optimistic update, and the selected/disabled flags of a poll card.
 */
module HomePage {
  import opened Wrappers
  import opened Seqs
  import opened Records

  // ---------------------------------------------------------------------------
  // Time-window filter
  // ---------------------------------------------------------------------------

  /** The filter callback: a poll is dropped if it starts after `now` or ended before `now`. */
  predicate InWindow(p: Poll, now: int)
  {
    && !(p.row.startAt.Some? && p.row.startAt.value > now)
    && !(p.row.endAt.Some? && p.row.endAt.value < now)
  }

  /**
   * The polls the page lists (none when the query returns nothing): the fetched
   * polls whose window contains `now`, boundary instants included, in fetched order.
   */
  function ActivePolls(pollsData: Option<seq<Poll>>, now: int): (r: seq<Poll>)
    ensures pollsData.None? ==> r == []
    ensures forall p :: p in r <==>
      && pollsData.Some? && p in pollsData.value
      && (p.row.startAt.None? || p.row.startAt.value <= now)
      && (p.row.endAt.None? || now <= p.row.endAt.value)
    ensures pollsData.Some? ==> SubsequenceOf(r, pollsData.value)
    ensures pollsData.Some? ==>
      forall p :: multiset(r)[p] == if InWindow(p, now) then multiset(pollsData.value)[p] else 0
  {
    match pollsData
    case None => []
    case Some(ps) =>
      var keep := (p: Poll) => InWindow(p, now);
      KeepCounts(ps, keep);
      KeepOrder(ps, keep);
      Keep(ps, keep)
  }

  // ---------------------------------------------------------------------------
  // The voted map
  // ---------------------------------------------------------------------------

  /** The map the `forEach` over the voter's vote rows leaves behind: later rows overwrite earlier ones. */
  function VotedMapOf(votes: seq<VoteRow>): map<int, int>
  {
    if votes == [] then map[]
    else
      var last := votes[|votes| - 1];
      VotedMapOf(votes[..|votes| - 1])[last.pollId := last.optionId]
  }

  /** Row `i` is the last row of `votes` that concerns `pollId`. */
  ghost predicate LastRowFor(votes: seq<VoteRow>, pollId: int, i: int)
  {
    && 0 <= i < |votes|
    && votes[i].pollId == pollId
    && forall j :: i < j < |votes| ==> votes[j].pollId != pollId
  }

  /** The voted map has exactly the polls of the rows as keys. */
  lemma {:induction false} VotedMapKeys(votes: seq<VoteRow>)
    ensures VotedMapOf(votes).Keys == set v | v in votes :: v.pollId
  {
    if votes != [] {
      var init, last := votes[..|votes| - 1], votes[|votes| - 1];
      assert votes == init + [last];
      VotedMapKeys(init);
      assert (set v | v in votes :: v.pollId) == (set v | v in init :: v.pollId) + {last.pollId};
    }
  }

  /** Each key of the voted map holds the option of the last row for that poll. */
  lemma {:induction false} VotedMapLastRow(votes: seq<VoteRow>)
    ensures forall k :: k in VotedMapOf(votes) ==>
      exists i :: LastRowFor(votes, k, i) && VotedMapOf(votes)[k] == votes[i].optionId
  {
    if votes != [] {
      var init, last := votes[..|votes| - 1], votes[|votes| - 1];
      VotedMapLastRow(init);
      forall k | k in VotedMapOf(votes)
        ensures exists i :: LastRowFor(votes, k, i) && VotedMapOf(votes)[k] == votes[i].optionId
      {
        if k == last.pollId {
          assert LastRowFor(votes, k, |votes| - 1);
        } else {
          var i :| LastRowFor(init, k, i) && VotedMapOf(init)[k] == init[i].optionId;
          assert LastRowFor(votes, k, i);
        }
      }
    }
  }

  /** The loop over the voter's rows, in order, that stores each row's option under its poll id. */
  method BuildVotedMap(votes: seq<VoteRow>) returns (m: map<int, int>)
    ensures m == VotedMapOf(votes)
    ensures m.Keys == set v | v in votes :: v.pollId
    ensures forall k :: k in m ==> exists i :: LastRowFor(votes, k, i) && m[k] == votes[i].optionId
  {
    m := map[];
    var i := 0;
    while i < |votes|
      invariant 0 <= i <= |votes|
      invariant m == VotedMapOf(votes[..i])
    {
      assert votes[..i + 1][..i] == votes[..i];
      m := m[votes[i].pollId := votes[i].optionId];
      i := i + 1;
    }
    assert votes[..i] == votes;
    VotedMapKeys(votes);
    VotedMapLastRow(votes);
  }

  // ---------------------------------------------------------------------------
  // The vote gate
  // ---------------------------------------------------------------------------

  /** The voted map's entry for the poll is truthy: the key is present and its option id is not the number 0. */
  predicate HasVoted(m: map<int, int>, pollId: int)
  {
    pollId in m && m[pollId] != 0
  }

  /** The entry the card of poll `pollId` receives: absent (JavaScript's `undefined`) when the map has no key for it. */
  function Lookup(m: map<int, int>, pollId: int): Option<int>
  {
    if pollId in m then Some(m[pollId]) else None
  }

  /** Which way `handleVote` leaves: at the status check, at the already-voted check, or past both. */
  datatype VoteGate = NotVotingTime | AlreadyVoted | Admitted

  function Gate(status: Status, m: map<int, int>, pollId: int): (g: VoteGate)
    ensures g == NotVotingTime <==> status != Voting
    ensures g == AlreadyVoted <==> status == Voting && HasVoted(m, pollId)
    ensures g == Admitted <==> status == Voting && !HasVoted(m, pollId)
  {
    if status != Voting then NotVotingTime
    else if HasVoted(m, pollId) then AlreadyVoted
    else Admitted
  }

  /** The voted map after `handleVote(pollId, optionId)`: only an admitted vote records its choice. */
  function NextVotedMap(status: Status, m: map<int, int>, pollId: int, optionId: int): (r: map<int, int>)
    ensures status != Voting ==> r == m
    ensures HasVoted(m, pollId) ==> r == m
    ensures status == Voting && !HasVoted(m, pollId) ==>
      && r.Keys == m.Keys + {pollId}
      && r[pollId] == optionId
      && forall k :: k in m && k != pollId ==> r[k] == m[k]
  {
    if Gate(status, m, pollId) == Admitted then m[pollId := optionId] else m
  }

  /** The voted map after a sequence of `(pollId, optionId)` clicks under a fixed status. */
  ghost function AfterClicks(status: Status, m: map<int, int>, clicks: seq<(int, int)>): map<int, int>
    decreases |clicks|
  {
    if clicks == [] then m
    else AfterClicks(status, NextVotedMap(status, m, clicks[0].0, clicks[0].1), clicks[1..])
  }

  /** Once a poll holds a truthy choice, no later click changes that choice. */
  lemma {:induction false} ChoiceIsFinal(status: Status, m: map<int, int>, clicks: seq<(int, int)>, pollId: int)
    requires HasVoted(m, pollId)
    ensures HasVoted(AfterClicks(status, m, clicks), pollId)
    ensures AfterClicks(status, m, clicks)[pollId] == m[pollId]
    decreases |clicks|
  {
    if clicks != [] {
      ChoiceIsFinal(status, NextVotedMap(status, m, clicks[0].0, clicks[0].1), clicks[1..], pollId);
    }
  }

  /** While the status is not `'voting'`, no click changes the voted map. */
  lemma {:induction false} ClosedStatusRecordsNothing(status: Status, m: map<int, int>, clicks: seq<(int, int)>)
    requires status != Voting
    ensures AfterClicks(status, m, clicks) == m
    decreases |clicks|
  {
    if clicks != [] {
      ClosedStatusRecordsNothing(status, m, clicks[1..]);
    }
  }

  /**
   * Clicks only ever add entries: every key survives, and every entry that
   * was already truthy keeps its option.
   */
  lemma {:induction false} ClicksOnlyAdd(status: Status, m: map<int, int>, clicks: seq<(int, int)>)
    ensures m.Keys <= AfterClicks(status, m, clicks).Keys
    ensures forall k :: HasVoted(m, k) ==> AfterClicks(status, m, clicks)[k] == m[k]
    decreases |clicks|
  {
    if clicks != [] {
      ClicksOnlyAdd(status, NextVotedMap(status, m, clicks[0].0, clicks[0].1), clicks[1..]);
    }
  }

  /**
   * The gate tests truthiness, not presence: a choice recorded with option
   * id 0 does not close the gate, and the next click on that poll is admitted.
   */
  lemma ZeroOptionIdLeavesGateOpen(m: map<int, int>, pollId: int, optionId: int)
    requires !HasVoted(m, pollId)
    ensures var r := NextVotedMap(Voting, m, pollId, 0);
      pollId in r && Gate(Voting, r, pollId) == Admitted && NextVotedMap(Voting, r, pollId, optionId)[pollId] == optionId
  {
  }

  // ---------------------------------------------------------------------------
  // Poll card flags
  // ---------------------------------------------------------------------------

  datatype ButtonFlags = ButtonFlags(selected: bool, disabled: bool)

  /**
   * The flags of a poll card's buttons, one per option in option order. A
   * truthy entry disables every button and selects those carrying that id;
   * no entry leaves every button enabled and unselected; an entry of 0 is
   * falsy, so it disables nothing, yet still selects an option whose id is 0.
   */
  function CardFlags(options: seq<PollOption>, votedOptionId: Option<int>): (r: seq<ButtonFlags>)
    ensures |r| == |options|
    ensures votedOptionId.Some? && votedOptionId.value != 0 ==>
      forall i :: 0 <= i < |r| ==> r[i].disabled && (r[i].selected <==> options[i].id == votedOptionId.value)
    ensures votedOptionId.None? ==>
      forall i :: 0 <= i < |r| ==> !r[i].disabled && !r[i].selected
    ensures votedOptionId == Some(0) ==>
      forall i :: 0 <= i < |r| ==> !r[i].disabled && (r[i].selected <==> options[i].id == 0)
  {
    seq(|options|, i requires 0 <= i < |options| => CardButton(options[i], votedOptionId))
  }

  /** One button: selected when the entry is its id, disabled when the entry is truthy. */
  function CardButton(option: PollOption, votedOptionId: Option<int>): ButtonFlags
  {
    var hasVoted := votedOptionId.Some? && votedOptionId.value != 0;
    ButtonFlags(votedOptionId == Some(option.id), hasVoted)
  }

  /**
   * After an admitted vote for a non-zero option id, the card of that poll has
   * every button disabled and exactly the buttons with that id selected.
   */
  lemma CardAfterVote(status: Status, m: map<int, int>, pollId: int, optionId: int, options: seq<PollOption>)
    requires Gate(status, m, pollId) == Admitted && optionId != 0
    ensures var flags := CardFlags(options, Lookup(NextVotedMap(status, m, pollId, optionId), pollId));
      forall i :: 0 <= i < |options| ==> flags[i].disabled && (flags[i].selected <==> options[i].id == optionId)
  {
  }

  // ---------------------------------------------------------------------------
  // The page state
  // ---------------------------------------------------------------------------

  /** The toast messages the page shows. */
  datatype Toast = NotVotingTimeNotice | ThanksNotice | ErrorNotice

  /** One call of the remote `increment_vote` procedure, with its three arguments. */
  datatype IncrementCall = IncrementCall(optionId: int, pollId: int, voterId: string)

  /** The `Home` component's state. `calls` records the increment calls it has issued. */
  class Home {
    const voterId: string
    var siteStatus: Status
    var polls: seq<Poll>
    var votedMap: map<int, int>
    var loading: bool
    var toast: Option<Toast>
    var calls: seq<IncrementCall>

    constructor (voterId: string)
      ensures this.voterId == voterId
      ensures siteStatus == Waiting && polls == [] && votedMap == map[] && loading
      ensures toast == None && calls == []
    {
      this.voterId := voterId;
      siteStatus := Waiting;
      polls := [];
      votedMap := map[];
      loading := true;
      toast := None;
      calls := [];
    }

    /**
     * `fetchData`, given the three query results: an absent settings row keeps
     * the status, absent vote rows keep the voted map.
     */
    method FetchData(settings: Option<SettingsRow>, pollsData: Option<seq<Poll>>, votes: Option<seq<VoteRow>>, now: int)
      modifies this
      ensures siteStatus == if settings.Some? then settings.value.status else old(siteStatus)
      ensures polls == ActivePolls(pollsData, now)
      ensures votedMap == if votes.Some? then VotedMapOf(votes.value) else old(votedMap)
      ensures !loading && toast == old(toast) && calls == old(calls)
    {
      if settings.Some? {
        siteStatus := settings.value.status;
      }
      polls := ActivePolls(pollsData, now);
      if votes.Some? {
        votedMap := BuildVotedMap(votes.value);
      }
      loading := false;
    }

    /**
     * `handleVote(pollId, optionId)`. `rpcFailed` is whether the increment call
     * reports an error; it only changes the toast, never the voted map.
     */
    method HandleVote(pollId: int, optionId: int, rpcFailed: bool) returns (gate: VoteGate)
      modifies this`votedMap, this`toast, this`calls
      ensures gate == Gate(old(siteStatus), old(votedMap), pollId)
      ensures votedMap == NextVotedMap(old(siteStatus), old(votedMap), pollId, optionId)
      ensures calls == old(calls) + if gate == Admitted then [IncrementCall(optionId, pollId, voterId)] else []
      ensures toast == match gate
        case NotVotingTime => Some(NotVotingTimeNotice)
        case AlreadyVoted => old(toast)
        case Admitted => Some(if rpcFailed then ErrorNotice else ThanksNotice)
    {
      if siteStatus != Voting {
        toast := Some(NotVotingTimeNotice);
        return NotVotingTime;
      }
      if pollId in votedMap && votedMap[pollId] != 0 {
        return AlreadyVoted;
      }
      votedMap := votedMap[pollId := optionId];
      toast := Some(ThanksNotice);
      calls := calls + [IncrementCall(optionId, pollId, voterId)];
      if rpcFailed {
        toast := Some(ErrorNotice);
      }
      return Admitted;
    }

    /** The flags of the card of `polls[i]`, which receives the voted map's entry for that poll. */
    function Card(i: int): (r: seq<ButtonFlags>)
      reads this
      requires 0 <= i < |polls|
      ensures |r| == |polls[i].options|
      ensures HasVoted(votedMap, polls[i].row.id) ==> forall j :: 0 <= j < |r| ==>
        r[j].disabled && (r[j].selected <==> polls[i].options[j].id == votedMap[polls[i].row.id])
      ensures polls[i].row.id !in votedMap ==> forall j :: 0 <= j < |r| ==> !r[j].disabled && !r[j].selected
    {
      CardFlags(polls[i].options, Lookup(votedMap, polls[i].row.id))
    }
  }
}
