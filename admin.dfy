/**
 * The administrator's page: creating a poll from the form (title check,
 * option filtering and tagging, form reset), the delete cascade over the
 * three tables, the editor of the form's option list, and the global status
 * switch with its `'waiting'` default.
 *
 * The remote tables are a `Database` object whose fields the handlers
 * reassign; what the remote calls report (an error, a new id) is passed in.
 */
module AdminPanel {
  import opened Wrappers
  import opened Seqs
  import opened Text
  import opened Records

  // ---------------------------------------------------------------------------
  // The remote tables
  // ---------------------------------------------------------------------------

  /** The tables the page reads and writes. */
  class Database {
    var polls: seq<PollRow>
    var options: seq<PollOption>
    var votes: seq<VoteRow>
    var settings: seq<SettingsRow>

    constructor (polls: seq<PollRow>, options: seq<PollOption>, votes: seq<VoteRow>, settings: seq<SettingsRow>)
      ensures this.polls == polls && this.options == options && this.votes == votes && this.settings == settings
    {
      this.polls := polls;
      this.options := options;
      this.votes := votes;
      this.settings := settings;
    }

    /** Inserts the option rows built from the form's entries; a failed insert leaves the table as it was. */
    method InsertOptions(form: seq<string>, pollId: int, failed: bool, firstId: int)
      modifies this`options
      ensures options == old(options) + if failed then [] else Stored(OptionsToInsert(form, pollId), firstId)
    {
      if !failed {
        options := options + Stored(OptionsToInsert(form, pollId), firstId);
      }
    }
  }

  // ---------------------------------------------------------------------------
  // What `fetchData` shows
  // ---------------------------------------------------------------------------

  /** Whether an option belongs to poll `id`: how the polls query attaches options to their poll. */
  function OptionOf(id: int): PollOption -> bool
  {
    (o: PollOption) => o.pollId == id
  }

  /** The polls query: every poll row, each with the options that point to it. */
  function PollsView(rows: seq<PollRow>, options: seq<PollOption>): (r: seq<Poll>)
    ensures |r| == |rows|
    ensures forall i :: 0 <= i < |r| ==>
      && r[i].row == rows[i]
      && forall o :: o in r[i].options <==> o in options && o.pollId == rows[i].id
  {
    if rows == [] then []
    else
      var last := rows[|rows| - 1];
      var opts := Keep(options, OptionOf(last.id));
      assert forall o :: o in opts <==> o in options && o.pollId == last.id;
      PollsView(rows[..|rows| - 1], options) + [Poll(last, opts)]
  }

  /**
   * The page's copy of the settings row. Before the first fetch it is the
   * empty object, with neither an id nor a status.
   */
  datatype SettingsView = SettingsView(id: Option<int>, status: Option<Status>)

  /** What the page shows when the settings query returns no row: no id, status `'waiting'`. */
  const DefaultSettings := SettingsView(None, Some(Waiting))

  /**
   * The settings the page shows after a successful single-row query: the
   * row when the table holds exactly one, otherwise the default.
   */
  function SettingsOf(rows: seq<SettingsRow>): (r: SettingsView)
    ensures r.status.Some?
    ensures r.id.Some? <==> |rows| == 1
    ensures |rows| == 1 ==> r.id.value == rows[0].id && r.status.value == rows[0].status
    ensures |rows| != 1 ==> r.status.value == Waiting
  {
    if |rows| == 1 then SettingsView(Some(rows[0].id), Some(rows[0].status))
    else DefaultSettings
  }

  /** The status update filtered by id: every settings row with that id gets the new status. */
  function SetStatus(rows: seq<SettingsRow>, id: int, status: Status): (r: seq<SettingsRow>)
    ensures |r| == |rows|
    ensures forall k :: 0 <= k < |r| ==> r[k].id == rows[k].id
    ensures forall k :: 0 <= k < |r| ==> r[k].status == if rows[k].id == id then status else rows[k].status
  {
    if rows == [] then []
    else
      var head := if rows[0].id == id then rows[0].(status := status) else rows[0];
      [head] + SetStatus(rows[1..], id, status)
  }

  /** From any current status, a switch on the single settings row shows the chosen status next. */
  lemma StatusReachable(rows: seq<SettingsRow>, status: Status)
    requires |rows| == 1
    ensures SettingsOf(SetStatus(rows, SettingsOf(rows).id.value, status)) == SettingsView(Some(rows[0].id), Some(status))
  {
  }

  // ---------------------------------------------------------------------------
  // Creating a poll: the option payload
  // ---------------------------------------------------------------------------

  /** One object of the options insert: the new poll's id and the entry's text. */
  datatype NewOption = NewOption(pollId: int, text: string)

  /** The test `handleCreatePoll` keeps form entries by: not blank once trimmed. */
  function Filled(): string -> bool
  {
    (t: string) => !IsBlank(t)
  }

  /** The texts of an insert payload, in order. */
  function TextsOf(payload: seq<NewOption>): seq<string>
  {
    seq(|payload|, k requires 0 <= k < |payload| => payload[k].text)
  }

  /**
   * The options payload of a new poll: the form's non-blank entries, in form
   * order and untrimmed, each tagged with the new poll's id.
   */
  function OptionsToInsert(form: seq<string>, pollId: int): (r: seq<NewOption>)
    ensures forall k :: 0 <= k < |r| ==> r[k].pollId == pollId
    ensures SubsequenceOf(TextsOf(r), form)
    ensures forall t :: t in TextsOf(r) <==> t in form && !IsBlank(t)
    ensures forall t :: multiset(TextsOf(r))[t] == if IsBlank(t) then 0 else multiset(form)[t]
  {
    var kept := Keep(form, Filled());
    KeepCounts(form, Filled());
    KeepOrder(form, Filled());
    var r := seq(|kept|, k requires 0 <= k < |kept| => NewOption(pollId, kept[k]));
    assert TextsOf(r) == kept;
    r
  }

  /** A form whose entries are all blank inserts no options at all. */
  lemma BlankFormInsertsNothing(form: seq<string>, pollId: int)
    requires forall k :: 0 <= k < |form| ==> IsBlank(form[k])
    ensures OptionsToInsert(form, pollId) == []
  {
  }

  /** A form without blank entries inserts every entry, in order. */
  lemma FilledFormInsertsAll(form: seq<string>, pollId: int)
    requires forall k :: 0 <= k < |form| ==> !IsBlank(form[k])
    ensures TextsOf(OptionsToInsert(form, pollId)) == form
  {
    var texts := TextsOf(OptionsToInsert(form, pollId));
    assert multiset(texts) == multiset(form);
    assert |texts| == |multiset(texts)| == |multiset(form)| == |form|;
    SubsequenceOfSameLength(texts, form);
  }

  /**
   * An assumption about the options table, whose defaults the page does not
   * show: it numbers inserted rows from `firstId` on and starts every count at zero.
   */
  function Stored(payload: seq<NewOption>, firstId: int): seq<PollOption>
  {
    seq(|payload|, k requires 0 <= k < |payload| => PollOption(firstId + k, payload[k].pollId, payload[k].text, 0))
  }

  // ---------------------------------------------------------------------------
  // Deleting a poll: the three filters
  // ---------------------------------------------------------------------------

  /** The votes of poll `id`. */
  function VoteOf(id: int): VoteRow -> bool
  {
    (v: VoteRow) => v.pollId == id
  }

  /** Vote rows that survive deleting the votes of poll `id`. */
  function VoteNotOf(id: int): VoteRow -> bool
  {
    (v: VoteRow) => v.pollId != id
  }

  /** Option rows that survive deleting the options of poll `id`. */
  function OptionNotOf(id: int): PollOption -> bool
  {
    (o: PollOption) => o.pollId != id
  }

  /** Poll rows that survive deleting the poll row with id `id`. */
  function RowNotOf(id: int): PollRow -> bool
  {
    (p: PollRow) => p.id != id
  }

  /** The votes of any other poll, in order, are exactly what they were before the cascade. */
  lemma {:induction false} DeleteKeepsOtherVotes(votes: seq<VoteRow>, id: int, other: int)
    requires other != id
    ensures Keep(Keep(votes, VoteNotOf(id)), VoteOf(other)) == Keep(votes, VoteOf(other))
  {
    KeepNarrower(votes, VoteNotOf(id), VoteOf(other));
  }

  /** The options of any other poll, in order, are exactly what they were before the cascade. */
  lemma {:induction false} DeleteKeepsOtherOptions(options: seq<PollOption>, id: int, other: int)
    requires other != id
    ensures Keep(Keep(options, OptionNotOf(id)), OptionOf(other)) == Keep(options, OptionOf(other))
  {
    KeepNarrower(options, OptionNotOf(id), OptionOf(other));
  }

  /**
   * Once the poll row is gone, the refetched list shows no poll with that id,
   * only rows that were there before, each with the options pointing to it.
   */
  lemma {:induction false} DeletedPollNotShown(rows: seq<PollRow>, options: seq<PollOption>, id: int)
    ensures forall p :: p in PollsView(Keep(rows, RowNotOf(id)), options) ==>
      && p.row.id != id
      && p.row in rows
      && forall o :: o in p.options <==> o in options && o.pollId == p.row.id
  {
    var view := PollsView(Keep(rows, RowNotOf(id)), options);
    forall p | p in view
      ensures p.row.id != id && p.row in rows
      ensures forall o :: o in p.options <==> o in options && o.pollId == p.row.id
    {
      var i :| 0 <= i < |view| && view[i] == p;
      assert p.row in Keep(rows, RowNotOf(id));
    }
  }

  // ---------------------------------------------------------------------------
  // Removing an entry from the option list
  // ---------------------------------------------------------------------------

  /** The option list filtered by position: without position `idx`, or unchanged when there is none. */
  function WithoutIndex(opts: seq<string>, idx: int): (r: seq<string>)
    ensures 0 <= idx < |opts| ==> r == opts[..idx] + opts[idx + 1..]
    ensures !(0 <= idx < |opts|) ==> r == opts
  {
    if opts == [] then []
    else
      var rest := WithoutIndex(opts[1..], idx - 1);
      assert opts == [opts[0]] + opts[1..];
      if idx == 0 then rest else [opts[0]] + rest
  }

  // ---------------------------------------------------------------------------
  // The page
  // ---------------------------------------------------------------------------

  /** The notices `showMsg` displays. */
  datatype Notice = TitleRequired | CreateFailed | Created | DeleteFailed | Deleted | StatusUpdated(status: Status)

  /** The administrator page's state: the fetched polls and settings, the notice, and the new-poll form. */
  class Panel {
    var polls: seq<Poll>
    var siteSettings: SettingsView
    var msg: Option<Notice>
    var title: string
    var desc: string
    var startAt: Option<int>
    var endAt: Option<int>
    var formOptions: seq<string>

    /** The option list never has fewer than the two entries it starts with. */
    predicate Valid()
      reads this
    {
      |formOptions| >= 2
    }

    /** The state before the first fetch: an empty form with two blank entries. */
    constructor ()
      ensures Valid()
      ensures polls == [] && siteSettings == SettingsView(None, None) && msg == None
      ensures title == "" && desc == "" && startAt == None && endAt == None && formOptions == ["", ""]
    {
      polls := [];
      siteSettings := SettingsView(None, None);
      msg := None;
      title := "";
      desc := "";
      startAt := None;
      endAt := None;
      formOptions := ["", ""];
    }

    /**
     * `fetchData`: the polls with their options (none when that query fails)
     * and the settings, which fall back to the default when that query fails.
     */
    method FetchData(db: Database, pollsFailed: bool, settingsFailed: bool)
      modifies this`polls, this`siteSettings
      ensures polls == if pollsFailed then [] else PollsView(db.polls, db.options)
      ensures siteSettings == if settingsFailed then DefaultSettings else SettingsOf(db.settings)
    {
      if pollsFailed {
        polls := [];
      } else {
        polls := PollsView(db.polls, db.options);
      }
      if settingsFailed {
        siteSettings := DefaultSettings;
      } else {
        siteSettings := SettingsOf(db.settings);
      }
    }

    /**
     * `handleUpdateStatus(status)`: the rows carrying the shown settings id
     * get the new status (none when the page shows no id, or when the update
     * fails, which the source ignores); then a refetch and a notice.
     */
    method HandleUpdateStatus(db: Database, status: Status, updateFailed: bool)
      modifies db`settings, this`polls, this`siteSettings, this`msg
      ensures db.settings ==
        if updateFailed || old(siteSettings.id).None? then old(db.settings)
        else SetStatus(old(db.settings), old(siteSettings.id.value), status)
      ensures polls == PollsView(db.polls, db.options) && siteSettings == SettingsOf(db.settings)
      ensures msg == Some(StatusUpdated(status))
      ensures !updateFailed && |old(db.settings)| == 1 && old(siteSettings) == SettingsOf(old(db.settings)) ==>
        siteSettings.status == Some(status)
    {
      if !updateFailed && siteSettings.id.Some? {
        if |db.settings| == 1 && siteSettings == SettingsOf(db.settings) {
          StatusReachable(db.settings, status);
        }
        db.settings := SetStatus(db.settings, siteSettings.id.value, status);
      }
      FetchData(db, false, false);
      msg := Some(StatusUpdated(status));
    }

    /**
     * `handleDeletePoll(id)`: without confirmation nothing happens. Otherwise
     * the poll's votes, then its options, then its row are deleted, each step
     * leaving its table as it was when it fails; success or failure is
     * reported from the poll-row step alone, and only success refetches.
     */
    method HandleDeletePoll(db: Database, id: int, confirmed: bool, votesFailed: bool, optionsFailed: bool, pollFailed: bool)
      modifies db`votes, db`options, db`polls, this`polls, this`siteSettings, this`msg
      ensures !confirmed ==>
        && db.votes == old(db.votes) && db.options == old(db.options) && db.polls == old(db.polls)
        && polls == old(polls) && siteSettings == old(siteSettings) && msg == old(msg)
      ensures confirmed ==>
        && db.votes == (if votesFailed then old(db.votes) else Keep(old(db.votes), VoteNotOf(id)))
        && db.options == (if optionsFailed then old(db.options) else Keep(old(db.options), OptionNotOf(id)))
        && db.polls == (if pollFailed then old(db.polls) else Keep(old(db.polls), RowNotOf(id)))
        && msg == Some(if pollFailed then DeleteFailed else Deleted)
      ensures confirmed && pollFailed ==> polls == old(polls) && siteSettings == old(siteSettings)
      ensures confirmed && !pollFailed ==> polls == PollsView(db.polls, db.options) && siteSettings == SettingsOf(db.settings)
      ensures confirmed && !votesFailed ==> forall v :: v in db.votes ==> v.pollId != id
      ensures confirmed && !optionsFailed ==> forall o :: o in db.options ==> o.pollId != id
      ensures confirmed && !pollFailed ==> forall p :: p in polls ==> p.row.id != id
    {
      if !confirmed {
        return;
      }
      if !votesFailed {
        db.votes := Keep(db.votes, VoteNotOf(id));
      }
      if !optionsFailed {
        db.options := Keep(db.options, OptionNotOf(id));
      }
      if !pollFailed {
        DeletedPollNotShown(db.polls, db.options, id);
        db.polls := Keep(db.polls, RowNotOf(id));
        msg := Some(Deleted);
        FetchData(db, false, false);
      } else {
        msg := Some(DeleteFailed);
      }
    }

    /**
     * `handleCreatePoll`: an empty title only shows a notice; a failed poll
     * insert shows a notice and stops; otherwise the poll row (active, with
     * the form's fields) and its non-blank options are inserted, the form is
     * reset and the list refetched. A failed options insert is not noticed.
     * `pollInsert` is the new row's id, or `None` when the insert fails.
     */
    method HandleCreatePoll(db: Database, pollInsert: Option<int>, optionsFailed: bool, firstOptionId: int)
      requires Valid()
      modifies db`polls, db`options, this
      ensures Valid()
      ensures old(title) == "" ==> msg == Some(TitleRequired)
      ensures old(title) != "" && pollInsert.None? ==> msg == Some(CreateFailed)
      ensures old(title) == "" || pollInsert.None? ==>
        && db.polls == old(db.polls) && db.options == old(db.options)
        && title == old(title) && desc == old(desc) && startAt == old(startAt) && endAt == old(endAt)
        && formOptions == old(formOptions) && polls == old(polls) && siteSettings == old(siteSettings)
      ensures old(title) != "" && pollInsert.Some? ==>
        && db.polls == old(db.polls) + [PollRow(pollInsert.value, old(title), old(desc), true, old(startAt), old(endAt))]
        && db.options == old(db.options) +
          (if optionsFailed then [] else Stored(OptionsToInsert(old(formOptions), pollInsert.value), firstOptionId))
        && title == "" && desc == "" && startAt == None && endAt == None && formOptions == ["", ""]
        && polls == PollsView(db.polls, db.options) && siteSettings == SettingsOf(db.settings)
        && msg == Some(Created)
    {
      if title == "" {
        msg := Some(TitleRequired);
        return;
      }
      if pollInsert.None? {
        msg := Some(CreateFailed);
        return;
      }
      var pollId := pollInsert.value;
      db.polls := db.polls + [PollRow(pollId, title, desc, true, startAt, endAt)];
      db.InsertOptions(formOptions, pollId, optionsFailed, firstOptionId);
      ResetForm();
      FetchData(db, false, false);
      msg := Some(Created);
    }

    /** The form after a completed create: empty fields and two blank entries. */
    method ResetForm()
      modifies this`title, this`desc, this`startAt, this`endAt, this`formOptions
      ensures Valid()
      ensures title == "" && desc == "" && startAt == None && endAt == None && formOptions == ["", ""]
    {
      title := "";
      desc := "";
      startAt := None;
      endAt := None;
      formOptions := ["", ""];
    }

    /** Typing into entry `idx`: a copy of the list with that slot replaced. */
    method EditOption(idx: int, value: string)
      requires 0 <= idx < |formOptions|
      modifies this`formOptions
      ensures |formOptions| == |old(formOptions)|
      ensures formOptions[idx] == value
      ensures forall k :: 0 <= k < |formOptions| && k != idx ==> formOptions[k] == old(formOptions[k])
    {
      var newOpts := new string[|formOptions|](k requires 0 <= k < |formOptions| reads this => formOptions[k]);
      newOpts[idx] := value;
      formOptions := newOpts[..];
    }

    /** The remove button, offered only while the list has more than two entries: drops entry `idx`. */
    method RemoveOption(idx: int)
      requires |formOptions| > 2 && 0 <= idx < |formOptions|
      modifies this`formOptions
      ensures Valid()
      ensures formOptions == old(formOptions[..idx]) + old(formOptions[idx + 1..])
    {
      formOptions := WithoutIndex(formOptions, idx);
    }

    /** The add button: one more blank entry at the end. */
    method AddOption()
      modifies this`formOptions
      ensures formOptions == old(formOptions) + [""]
      ensures old(Valid()) ==> Valid()
    {
      formOptions := formOptions + [""];
    }
  }
}
