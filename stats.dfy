/**
 * The public statistics page: per-poll and global vote totals computed over
 * the fetched polls (sorting each poll's options in place), the percentage
 * with its zero-total guard, truncated display names, and the search box.
 */
module PublicStats {
  import opened Wrappers
  import opened Text
  import opened Records

  // ---------------------------------------------------------------------------
  // Sums
  // ---------------------------------------------------------------------------

  /** No option of `s` has a negative count. */
  ghost predicate NonNegativeCounts(s: seq<PollOption>)
  {
    forall k :: 0 <= k < |s| ==> s[k].voteCount >= 0
  }

  /** The votes of a poll: its options' counts added up from the first to the last, starting at 0. */
  function SumVotes(s: seq<PollOption>): (r: int)
    ensures s == [] ==> r == 0
    ensures NonNegativeCounts(s) ==> r >= 0
  {
    if s == [] then 0 else SumVotes(s[..|s| - 1]) + s[|s| - 1].voteCount
  }

  /** Summing from the front gives the same total as the left-to-right reduce. */
  lemma {:induction false} SumVotesFront(s: seq<PollOption>)
    requires s != []
    ensures SumVotes(s) == s[0].voteCount + SumVotes(s[1..])
  {
    if |s| > 1 {
      SumVotesFront(s[..|s| - 1]);
      assert s[..|s| - 1][1..] == s[1..][..|s| - 2];
    }
  }

  /** Removing the option at index `j` takes exactly its count out of the sum. */
  lemma {:induction false} SumVotesRemove(s: seq<PollOption>, j: int)
    requires 0 <= j < |s|
    ensures SumVotes(s) == s[j].voteCount + SumVotes(s[..j] + s[j + 1..])
  {
    SumVotesFront(s);
    if j > 0 {
      SumVotesRemove(s[1..], j - 1);
      assert s[1..][..j - 1] + s[1..][j..] == (s[..j] + s[j + 1..])[1..];
      SumVotesFront(s[..j] + s[j + 1..]);
    } else {
      assert s[..j] + s[j + 1..] == s[1..];
    }
  }

  /** Reordering the options does not change their total. */
  lemma {:induction false} SumVotesPermutation(a: seq<PollOption>, b: seq<PollOption>)
    requires multiset(a) == multiset(b)
    ensures SumVotes(a) == SumVotes(b)
    decreases |a|
  {
    if a == [] {
      assert |b| == |multiset(b)| == 0;
    } else {
      assert a[0] in multiset(b);
      var j :| 0 <= j < |b| && b[j] == a[0];
      var rest := b[..j] + b[j + 1..];
      assert b == b[..j] + [b[j]] + b[j + 1..];
      assert a == [a[0]] + a[1..];
      assert multiset(a) == multiset{a[0]} + multiset(a[1..]);
      assert multiset(b) == multiset(b[..j]) + multiset{b[j]} + multiset(b[j + 1..]);
      assert multiset(rest) == multiset(b[..j]) + multiset(b[j + 1..]);
      assert multiset(a[1..]) == multiset(a) - multiset{a[0]};
      assert multiset(rest) == multiset(b) - multiset{b[j]};
      SumVotesPermutation(a[1..], rest);
      SumVotesFront(a);
      SumVotesRemove(b, j);
    }
  }

  /** With non-negative counts, no option has more votes than its poll's total. */
  lemma {:induction false} OptionWithinPollTotal(s: seq<PollOption>, i: int)
    requires forall o :: o in s ==> o.voteCount >= 0
    requires 0 <= i < |s|
    ensures 0 <= s[i].voteCount <= SumVotes(s)
  {
    var init := s[..|s| - 1];
    if i < |s| - 1 {
      OptionWithinPollTotal(init, i);
    } else if init != [] {
      OptionWithinPollTotal(init, 0);
    }
  }

  /** The global total the loop accumulates, as a sum over the sequence of per-poll totals. */
  function Sum(xs: seq<int>): int
  {
    if xs == [] then 0 else Sum(xs[..|xs| - 1]) + xs[|xs| - 1]
  }

  /** With non-negative per-poll totals, no poll total exceeds the global total. */
  lemma {:induction false} PollWithinGlobalTotal(xs: seq<int>, i: int)
    requires forall k :: 0 <= k < |xs| ==> xs[k] >= 0
    requires 0 <= i < |xs|
    ensures 0 <= xs[i] <= Sum(xs)
  {
    var init := xs[..|xs| - 1];
    if i < |xs| - 1 {
      PollWithinGlobalTotal(init, i);
    } else if init != [] {
      PollWithinGlobalTotal(init, 0);
    }
  }

  // ---------------------------------------------------------------------------
  // The in-place option sort
  // ---------------------------------------------------------------------------

  ghost predicate SortedById(s: seq<PollOption>)
  {
    forall p, q :: 0 <= p < q < |s| ==> s[p].id <= s[q].id
  }

  /** Sorts a poll's options array in place by ascending id. */
  method SortById(a: array<PollOption>)
    modifies a
    ensures SortedById(a[..])
    ensures multiset(a[..]) == multiset(old(a[..]))
  {
    var i := 0;
    while i < a.Length
      invariant 0 <= i <= a.Length
      invariant forall p, q :: 0 <= p < q < i ==> a[p].id <= a[q].id
      invariant multiset(a[..]) == multiset(old(a[..]))
    {
      Sink(a, i);
      i := i + 1;
    }
  }

  /** Moves `a[i]` left past every larger id, so that `a[..i + 1]` becomes sorted. */
  method Sink(a: array<PollOption>, i: int)
    requires 0 <= i < a.Length
    requires forall p, q :: 0 <= p < q < i ==> a[p].id <= a[q].id
    modifies a
    ensures forall p, q :: 0 <= p < q <= i ==> a[p].id <= a[q].id
    ensures multiset(a[..]) == multiset(old(a[..]))
  {
    var j := i;
    while j > 0 && a[j - 1].id > a[j].id
      invariant 0 <= j <= i
      invariant forall p, q :: 0 <= p < q <= i && p != j && q != j ==> a[p].id <= a[q].id
      invariant forall q :: j < q <= i ==> a[j].id < a[q].id
      invariant multiset(a[..]) == multiset(old(a[..]))
    {
      Swap(a, j);
      j := j - 1;
    }
  }

  /** Exchanges `a[j - 1]` and `a[j]`, which keeps the contents. */
  method Swap(a: array<PollOption>, j: int)
    requires 0 < j < a.Length
    modifies a
    ensures a[j - 1] == old(a[j]) && a[j] == old(a[j - 1])
    ensures forall k :: 0 <= k < a.Length && k != j - 1 && k != j ==> a[k] == old(a[k])
    ensures multiset(a[..]) == multiset(old(a[..]))
  {
    a[j - 1], a[j] := a[j], a[j - 1];
  }

  // ---------------------------------------------------------------------------
  // The fetched polls and the tally loop
  // ---------------------------------------------------------------------------

  /** A fetched poll object: its options array is sorted in place and `totalPollVotes` is assigned to it. */
  class StatsPoll {
    const id: int
    const title: string
    const options: array<PollOption>
    var totalPollVotes: int

    constructor (id: int, title: string, options: array<PollOption>)
      ensures this.id == id && this.title == title && this.options == options && totalPollVotes == 0
    {
      this.id := id;
      this.title := title;
      this.options := options;
      totalPollVotes := 0;
    }
  }

  /** The fetched objects are distinct and share no options array. */
  ghost predicate Unaliased(ps: seq<StatsPoll>)
  {
    forall i, j :: 0 <= i < j < |ps| ==> ps[i] != ps[j] && ps[i].options != ps[j].options
  }

  /** The `totalPollVotes` field of each poll, in order. */
  function Totals(ps: seq<StatsPoll>): (r: seq<int>)
    reads ps
    ensures |r| == |ps|
  {
    if ps == [] then [] else Totals(ps[..|ps| - 1]) + [ps[|ps| - 1].totalPollVotes]
  }

  /** `p` has been through the loop: its options are `fetched` sorted, and its total is theirs. */
  ghost predicate Tallied(p: StatsPoll, fetched: seq<PollOption>)
    reads p, p.options
  {
    && SortedById(p.options[..])
    && multiset(p.options[..]) == multiset(fetched)
    && p.totalPollVotes == SumVotes(fetched)
  }

  /** One step of the `forEach`: sort the options, then sum their counts into `totalPollVotes`. */
  method TallyPoll(p: StatsPoll) returns (t: int)
    modifies p, p.options
    ensures Tallied(p, old(p.options[..]))
    ensures t == p.totalPollVotes
  {
    SortById(p.options);
    SumVotesPermutation(p.options[..], old(p.options[..]));
    p.totalPollVotes := SumVotes(p.options[..]);
    t := p.totalPollVotes;
  }

  /**
   * The `forEach` of `fetchData`: sort each poll's options by id, store the
   * sum of their counts in `totalPollVotes`, and add it to the global total.
   * The polls themselves keep their order.
   */
  method TallyPolls(ps: seq<StatsPoll>) returns (total: int)
    requires Unaliased(ps)
    modifies ps, set p | p in ps :: p.options
    ensures forall k :: 0 <= k < |ps| ==> Tallied(ps[k], old(ps[k].options[..]))
    ensures total == Sum(Totals(ps))
  {
    total := 0;
    ghost var ts: seq<int> := [];
    var i := 0;
    while i < |ps|
      invariant 0 <= i <= |ps| && |ts| == i
      invariant forall k :: 0 <= k < i ==> Tallied(ps[k], old(ps[k].options[..]))
      invariant forall k :: i <= k < |ps| ==> ps[k].options[..] == old(ps[k].options[..])
      invariant forall k :: 0 <= k < i ==> ts[k] == SumVotes(old(ps[k].options[..]))
      invariant total == Sum(ts)
    {
      var p := ps[i];
      label before:
      var t := TallyPoll(p);
      forall k | 0 <= k < |ps| && k != i
        ensures ps[k].options[..] == old@before(ps[k].options[..])
        ensures ps[k].totalPollVotes == old@before(ps[k].totalPollVotes)
      {
        assert ps[k] != p && ps[k].options != p.options by { assert Unaliased(ps); }
      }
      assert (ts + [t])[..|ts|] == ts;
      ts := ts + [t];
      total := total + t;
      i := i + 1;
    }
    TotalsAre(ps, ts);
  }

  /** `Totals` lists each poll's own field. */
  lemma {:induction false} TotalsAre(ps: seq<StatsPoll>, ts: seq<int>)
    requires |ts| == |ps| && forall k :: 0 <= k < |ps| ==> ts[k] == ps[k].totalPollVotes
    ensures Totals(ps) == ts
    decreases |ps|
  {
    if ps != [] {
      TotalsAre(ps[..|ps| - 1], ts[..|ts| - 1]);
      assert ts == ts[..|ts| - 1] + [ts[|ts| - 1]];
    }
  }

  /** Each entry of `Totals` is its poll's own field. */
  lemma {:induction false} TotalsIndex(ps: seq<StatsPoll>)
    ensures forall k :: 0 <= k < |ps| ==> Totals(ps)[k] == ps[k].totalPollVotes
    decreases |ps|
  {
    if ps != [] {
      TotalsIndex(ps[..|ps| - 1]);
    }
  }

  // ---------------------------------------------------------------------------
  // The chart rows
  // ---------------------------------------------------------------------------

  /**
   * The percentage label of an option: a share of the poll total when the
   * total is positive, otherwise the literal `'0.0%'`. The decimal rendering
   * of a share is not modelled; no share is built over a zero total.
   */
  datatype Percent = ZeroPercent | Share(votes: int, total: int)

  function Percentage(votes: int, pollTotal: int): (r: Percent)
    ensures r.Share? <==> pollTotal > 0
    ensures r.Share? ==> r.votes == votes && r.total == pollTotal
  {
    if pollTotal > 0 then Share(votes, pollTotal) else ZeroPercent
  }

  /** The chart label of an option: names longer than ten characters keep their first ten and gain an ellipsis. */
  function DisplayName(name: string): (r: string)
    ensures |name| <= 10 ==> r == name
    ensures |name| > 10 ==> |r| == 13 && r[..10] == name[..10] && r[10..] == "..."
  {
    if |name| > 10 then name[..10] + "..." else name
  }

  /** Truncating a display name again changes nothing. */
  lemma DisplayNameIdempotent(name: string)
    ensures DisplayName(DisplayName(name)) == DisplayName(name)
  {
    if |name| > 10 {
      assert DisplayName(name)[..10] + "..." == DisplayName(name);
    }
  }

  datatype ChartRow = ChartRow(name: string, votes: int, displayName: string, percentage: Percent)

  /** The rows a poll's chart is drawn from, one per option in option order. */
  function ChartRows(options: seq<PollOption>, pollTotal: int): (r: seq<ChartRow>)
    ensures |r| == |options|
    ensures forall i :: 0 <= i < |r| ==> r[i].name == options[i].text && r[i].votes == options[i].voteCount
    ensures forall i :: 0 <= i < |r| ==> |r[i].displayName| <= 13 && (|options[i].text| <= 10 ==> r[i].displayName == options[i].text)
    ensures forall i :: 0 <= i < |r| ==> (r[i].percentage.Share? <==> pollTotal > 0)
    ensures forall i :: 0 <= i < |r| ==> r[i].percentage.Share? ==>
      r[i].percentage.votes == options[i].voteCount && r[i].percentage.total == pollTotal
  {
    seq(|options|, i requires 0 <= i < |options| =>
      ChartRow(options[i].text, options[i].voteCount, DisplayName(options[i].text), Percentage(options[i].voteCount, pollTotal)))
  }

  /** A poll with no votes labels every option `'0.0%'`. */
  lemma ZeroTotalLabelsZero(options: seq<PollOption>)
    ensures forall row :: row in ChartRows(options, 0) ==> row.percentage == ZeroPercent
  {
  }

  /**
   * With non-negative counts and the poll total as computed by `fetchData`,
   * every share lies between 0 and the whole.
   */
  lemma SharesWithinWhole(options: seq<PollOption>, i: int)
    requires forall o :: o in options ==> o.voteCount >= 0
    requires 0 <= i < |options|
    ensures var p := ChartRows(options, SumVotes(options))[i].percentage;
      p.Share? ==> 0 <= p.votes <= p.total
  {
    OptionWithinPollTotal(options, i);
  }

  // ---------------------------------------------------------------------------
  // The page state
  // ---------------------------------------------------------------------------

  /** The outcome of the voter search query. */
  datatype SearchResult = QueryError | NoData | Rows(rows: seq<VoteRow>)

  /** The `PublicStats` component's state. */
  class StatsPage {
    var polls: seq<StatsPoll>
    var totalVotes: int
    var searchId: string
    var userVotes: seq<VoteRow>
    var loading: bool

    constructor ()
      ensures polls == [] && totalVotes == 0 && searchId == "" && userVotes == [] && loading
    {
      polls := [];
      totalVotes := 0;
      searchId := "";
      userVotes := [];
      loading := true;
    }

    /** `fetchData`: when the query returns polls, tally them and show them in fetched order. */
    method FetchData(pollsData: Option<seq<StatsPoll>>)
      requires pollsData.Some? ==> Unaliased(pollsData.value)
      modifies this, if pollsData.Some? then pollsData.value else []
      modifies set p | pollsData.Some? && p in pollsData.value :: p.options
      ensures !loading && searchId == old(searchId) && userVotes == old(userVotes)
      ensures pollsData.None? ==> polls == old(polls) && totalVotes == old(totalVotes)
      ensures pollsData.Some? ==> polls == pollsData.value
      ensures pollsData.Some? ==> totalVotes == Sum(Totals(polls))
      ensures pollsData.Some? ==> forall k :: 0 <= k < |polls| ==> Tallied(polls[k], old(pollsData.value[k].options[..]))
    {
      loading := false;
      if pollsData.Some? {
        polls := pollsData.value;
        totalVotes := TallyPolls(pollsData.value);
      }
    }

    /**
     * `handleSearchUser(id)`: a blank id clears the results without a query;
     * otherwise the query runs (`queried`) and its rows, if any, replace them.
     */
    method HandleSearchUser(id: string, result: SearchResult) returns (queried: bool)
      modifies this`searchId, this`userVotes
      ensures searchId == id
      ensures queried <==> !IsBlank(id)
      ensures IsBlank(id) ==> userVotes == []
      ensures !IsBlank(id) ==> userVotes == if result.Rows? then result.rows else old(userVotes)
    {
      searchId := id;
      if Trim(id) == "" {
        userVotes := [];
        return false;
      }
      if result.Rows? {
        userVotes := result.rows;
      }
      return true;
    }
  }

  /**
   * In the state `FetchData` leaves (each shown poll tallied from its fetched
   * options, the page total the sum of the poll totals), non-negative fetched
   * counts put every poll total between 0 and the page total.
   */
  lemma PollWithinPageTotal(page: StatsPage, fetched: seq<seq<PollOption>>, k: int)
    requires |fetched| == |page.polls| && page.totalVotes == Sum(Totals(page.polls))
    requires forall j :: 0 <= j < |page.polls| ==> Tallied(page.polls[j], fetched[j])
    requires forall j :: 0 <= j < |fetched| ==> NonNegativeCounts(fetched[j])
    requires 0 <= k < |page.polls|
    ensures 0 <= page.polls[k].totalPollVotes <= page.totalVotes
  {
    var ts := Totals(page.polls);
    TotalsIndex(page.polls);
    forall j | 0 <= j < |ts|
      ensures ts[j] >= 0
    {
      assert Tallied(page.polls[j], fetched[j]);
    }
    PollWithinGlobalTotal(ts, k);
  }
}
