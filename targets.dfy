/**
 * The first dashboard variant (script.js): one global `appState` holding the
 * list of targets, the separate list of completed target ids and the selected
 * business tab, saved whole under one storage key after every change.
 */
module Targets {
  import Lists
  import Metrics
  import Clock

  /** The storage key of the saved state. */
  const STATE_KEY := "zeroHourState"
  /** The business tab selected before any is clicked. */
  const DEFAULT_BUSINESS := "viraaj"

  /** A target; `id` is `Date.now()` and `createdAt` an ISO time, both taken at creation. */
  datatype Target = Target(id: int, name: string, date: string, time: string, category: string, createdAt: string)

  function TargetId(t: Target): (id: int) {
    t.id
  }

  /** The value of `appState`, as it is serialised. */
  datatype AppState = AppState(targets: seq<Target>, completedTargets: seq<int>, currentBusiness: string)

  /**
   * A storage value: `Document(s)` is the text `JSON.stringify(s)`; `Text(t)` is raw
   * text, which under the state key stands for text `JSON.parse` rejects (the empty
   * string aside, which is never parsed).
   */
  datatype Stored = Document(state: AppState) | Text(text: string)

  /** What `loadState` finds under the key. */
  datatype Loaded = Absent | Found(state: AppState) | Unparsable

  /**
   * `localStorage.getItem(STATE_KEY)` followed by `if (saved) JSON.parse(saved)`:
   * nothing to load when the key is missing or holds the empty string, the saved
   * state for a document, and a parse failure for any other text.
   */
  function Read(storage: map<string, Stored>): (r: Loaded)
    ensures r.Absent? <==> STATE_KEY !in storage || storage[STATE_KEY] == Text("")
    ensures r.Found? <==> STATE_KEY in storage && storage[STATE_KEY].Document?
    ensures r.Found? ==> r.state == storage[STATE_KEY].state
  {
    if STATE_KEY !in storage then Absent
    else match storage[STATE_KEY]
      case Document(s) => Found(s)
      case Text(t) => if t == "" then Absent else Unparsable
  }

  /** `saveState`: the whole state under its key, every other key as it was. */
  function Saved(storage: map<string, Stored>, s: AppState): (r: map<string, Stored>)
    ensures r.Keys == storage.Keys + {STATE_KEY}
    ensures forall k :: k in storage && k != STATE_KEY ==> r[k] == storage[k]
    ensures Read(r) == Found(s)
  {
    storage[STATE_KEY := Document(s)]
  }

  /** Every form field the submit handler checks is non-empty. */
  predicate Filled(name: string, date: string, time: string, category: string) {
    name != "" && date != "" && time != "" && category != ""
  }

  /** The completed list has no duplicates and names only existing targets. */
  predicate Consistent(s: AppState) {
    Lists.Tracks(s.targets, TargetId, s.completedTargets)
  }

  /** No two targets share an id. */
  predicate UniqueIds(targets: seq<Target>) {
    Lists.NoDup(Lists.Keys(targets, TargetId))
  }

  /** The ids of `targets`, in order. */
  function Ids(targets: seq<Target>): (r: seq<int>)
    ensures |r| == |targets|
    ensures forall i :: 0 <= i < |targets| ==> r[i] == targets[i].id
  {
    Lists.Keys(targets, TargetId)
  }

  /**
   * `updateMetrics`: targets locked, completed, in progress and the success rate;
   * for a consistent state the in-progress count and the rate stay in range.
   */
  function CurrentMetrics(s: AppState): (m: Metrics.Summary)
    ensures m.total == |s.targets| && m.completed == |s.completedTargets|
    ensures m.inProgress == m.total - m.completed
    ensures m.successRate == Metrics.SuccessRate(|s.completedTargets|, |s.targets|)
    ensures Consistent(s) ==> 0 <= m.inProgress <= m.total && 0 <= m.successRate <= 100
  {
    if Consistent(s) then
      Lists.TracksBound(s.targets, TargetId, s.completedTargets);
      Metrics.Summarize(|s.completedTargets|, |s.targets|)
    else
      Metrics.Summarize(|s.completedTargets|, |s.targets|)
  }

  /**
   * `updateActiveMissions`: the targets whose id is not completed, in insertion
   * order; with unique ids and a consistent state they are as many as the
   * in-progress counter says.
   */
  function ActiveMissions(s: AppState): (r: seq<Target>)
    ensures forall t :: t in r <==> t in s.targets && t.id !in s.completedTargets
    ensures Consistent(s) && UniqueIds(s.targets) ==> |r| == CurrentMetrics(s).inProgress
  {
    if Consistent(s) && UniqueIds(s.targets) then
      Lists.PendingCount(s.targets, TargetId, s.completedTargets);
      Lists.Pending(s.targets, TargetId, s.completedTargets)
    else
      Lists.Pending(s.targets, TargetId, s.completedTargets)
  }

  /** A target appended after the others shows up last among the active missions, if not completed. */
  lemma ActiveMissionsAppend(s: AppState, t: Target)
    ensures ActiveMissions(s.(targets := s.targets + [t]))
      == ActiveMissions(s) + (if t.id in s.completedTargets then [] else [t])
  {
    Lists.PendingConcat(s.targets, [t], TargetId, s.completedTargets);
    assert [t][1..] == [];
  }

  /**
   * `updateDeadlineCountdown`: "No targets" for an empty list, otherwise the
   * countdown to the first target's time, whatever the other targets say.
   */
  function DeadlineCountdown(s: AppState, now: Clock.TimeOfDay): (r: Clock.Countdown)
    ensures r.NoTargets? <==> s.targets == []
    ensures s.targets != [] ==> r == Clock.CountdownTo(s.targets[0].time, now)
  {
    if s.targets == [] then Clock.NoTargets else Clock.CountdownTo(s.targets[0].time, now)
  }

  datatype Status = Completed | InProgress

  /** One line of the exported report. */
  datatype Row = Row(name: string, date: string, time: string, category: string, status: Status)

  /** The exported report, before it is rendered as delimited text. */
  datatype Report = Report(totalTargets: nat, completedTargets: nat, successRate: int, rows: seq<Row>)

  function RowOf(t: Target, completed: seq<int>): (r: Row) {
    Row(t.name, t.date, t.time, t.category, if t.id in completed then Completed else InProgress)
  }

  /** The report's rows: one per target, in order, "Completed" exactly for completed ids. */
  function ReportRows(targets: seq<Target>, completed: seq<int>): (rows: seq<Row>)
    ensures |rows| == |targets|
    ensures forall i :: 0 <= i < |targets| ==>
      && rows[i].name == targets[i].name && rows[i].date == targets[i].date
      && rows[i].time == targets[i].time && rows[i].category == targets[i].category
      && (rows[i].status == Completed <==> targets[i].id in completed)
  {
    if targets == [] then [] else [RowOf(targets[0], completed)] + ReportRows(targets[1..], completed)
  }

  /** The rows still in progress. */
  function InProgressRows(rows: seq<Row>): (r: seq<Row>)
    ensures forall x :: x in r <==> x in rows && x.status == InProgress
  {
    if rows == [] then []
    else (if rows[0].status == InProgress then [rows[0]] else []) + InProgressRows(rows[1..])
  }

  /** The report's in-progress rows are exactly the active missions, in the same order. */
  lemma {:induction false} InProgressRowsAreActive(s: AppState)
    ensures InProgressRows(ReportRows(s.targets, s.completedTargets))
      == ReportRows(ActiveMissions(s), s.completedTargets)
    decreases |s.targets|
  {
    if s.targets != [] {
      var t := s.targets[0];
      var tail := s.(targets := s.targets[1..]);
      var rows := ReportRows(s.targets, s.completedTargets);
      assert rows[1..] == ReportRows(tail.targets, s.completedTargets);
      InProgressRowsAreActive(tail);
      var rest := ActiveMissions(tail);
      if t.id !in s.completedTargets {
        assert ActiveMissions(s) == [t] + rest;
        assert ([t] + rest)[1..] == rest;
      } else {
        assert ActiveMissions(s) == rest;
      }
    }
  }

  /**
   * `generateReport`: the totals, the same success rate as the metrics panel,
   * and one row per target.
   */
  function GenerateReport(s: AppState): (r: Report)
    ensures r.totalTargets == |s.targets| && r.completedTargets == |s.completedTargets|
    ensures r.successRate == CurrentMetrics(s).successRate
    ensures r.rows == ReportRows(s.targets, s.completedTargets)
  {
    Report(|s.targets|, |s.completedTargets|, Metrics.SuccessRate(|s.completedTargets|, |s.targets|),
           ReportRows(s.targets, s.completedTargets))
  }

  /** The page: the global `appState` and the browser's storage. */
  class TargetStore {
    var targets: seq<Target>
    var completedTargets: seq<int>
    var currentBusiness: string
    var storage: map<string, Stored>

    function State(): AppState
      reads this
    {
      AppState(targets, completedTargets, currentBusiness)
    }

    /** A fresh page over the storage the browser already holds, before `loadState`. */
    constructor(saved: map<string, Stored>)
      ensures State() == AppState([], [], DEFAULT_BUSINESS) && storage == saved
    {
      targets := [];
      completedTargets := [];
      currentBusiness := DEFAULT_BUSINESS;
      storage := saved;
    }

    /**
     * `loadState`: the saved state replaces `appState` wholesale; missing or empty,
     * nothing changes; unparsable, `JSON.parse` throws (`ok` is false) before
     * `appState` is assigned, so nothing changes either.
     */
    method LoadState() returns (ok: bool)
      modifies this
      ensures storage == old(storage)
      ensures ok <==> !Read(old(storage)).Unparsable?
      ensures Read(old(storage)).Found? ==> State() == Read(old(storage)).state
      ensures !Read(old(storage)).Found? ==> State() == old(State())
    {
      var loaded := Read(storage);
      match loaded {
        case Absent => ok := true;
        case Unparsable => ok := false;
        case Found(s) =>
          targets, completedTargets, currentBusiness := s.targets, s.completedTargets, s.currentBusiness;
          ok := true;
      }
    }

    /** `saveState`. */
    method SaveState()
      modifies this`storage
      ensures storage == Saved(old(storage), State())
    {
      storage := storage[STATE_KEY := Document(State())];
    }

    /**
     * The target form's submit handler: with all four fields filled, one new
     * target is appended and the state saved; otherwise the submission is
     * rejected and nothing changes.
     */
    method SubmitTarget(name: string, date: string, time: string, category: string, id: int, createdAt: string)
      returns (locked: bool)
      modifies this
      ensures locked <==> Filled(name, date, time, category)
      ensures locked ==> targets == old(targets) + [Target(id, name, date, time, category, createdAt)]
      ensures locked ==> storage == Saved(old(storage), State())
      ensures !locked ==> targets == old(targets) && storage == old(storage)
      ensures completedTargets == old(completedTargets) && currentBusiness == old(currentBusiness)
      ensures old(Consistent(State())) ==> Consistent(State())
      ensures old(UniqueIds(targets)) && id !in old(Ids(targets)) ==> UniqueIds(targets)
    {
      if !Filled(name, date, time, category) {
        return false;
      }
      var target := Target(id, name, date, time, category, createdAt);
      Lists.KeysAppend(targets, TargetId, target);
      if Consistent(State()) {
        Lists.TracksAppend(targets, TargetId, completedTargets, target);
      }
      targets := targets + [target];
      SaveState();
      locked := true;
    }

    /**
     * `completeTarget`: the id is appended unless already present; the state is
     * saved only when something changed. Existence of a target with that id is
     * not checked (the page only offers the button for listed targets).
     */
    method CompleteTarget(id: int)
      modifies this
      ensures completedTargets == Lists.AddOnce(old(completedTargets), id)
      ensures targets == old(targets) && currentBusiness == old(currentBusiness)
      ensures id in old(completedTargets) ==> storage == old(storage)
      ensures id !in old(completedTargets) ==> storage == Saved(old(storage), State())
      ensures old(Consistent(State())) && id in old(Ids(targets)) ==> Consistent(State())
    {
      if id !in completedTargets {
        if Consistent(State()) && id in Ids(targets) {
          Lists.TracksAddOnce(targets, TargetId, completedTargets, id);
        }
        completedTargets := completedTargets + [id];
        SaveState();
      }
    }

    /**
     * `deleteTarget`: once confirmed, every target with the id and every
     * occurrence of the id among the completed ones are dropped, the rest kept in
     * order, and the state saved; declined, nothing changes.
     */
    method DeleteTarget(id: int, confirmed: bool)
      modifies this
      ensures confirmed ==> targets == Lists.RemoveKey(old(targets), TargetId, id)
      ensures confirmed ==> completedTargets == Lists.Remove(old(completedTargets), id)
      ensures confirmed ==> storage == Saved(old(storage), State())
      ensures !confirmed ==> targets == old(targets) && completedTargets == old(completedTargets)
      ensures !confirmed ==> storage == old(storage)
      ensures currentBusiness == old(currentBusiness)
      ensures old(Consistent(State())) ==> Consistent(State())
      ensures old(UniqueIds(targets)) ==> UniqueIds(targets)
    {
      if confirmed {
        if Consistent(State()) {
          Lists.TracksRemove(targets, TargetId, completedTargets, id);
        }
        if UniqueIds(targets) {
          Lists.RemoveKeyUnique(targets, TargetId, id);
        }
        targets := Lists.RemoveKey(targets, TargetId, id);
        completedTargets := Lists.Remove(completedTargets, id);
        SaveState();
      }
    }

    /** A business tab's click handler: remember the tab and save. */
    method SelectBusiness(business: string)
      modifies this
      ensures currentBusiness == business
      ensures targets == old(targets) && completedTargets == old(completedTargets)
      ensures storage == Saved(old(storage), State())
    {
      currentBusiness := business;
      SaveState();
    }
  }

  /**
   * Saving and reloading the page: a new page over the same storage loads back
   * exactly the state that was saved.
   */
  method Reload(page: TargetStore) returns (next: TargetStore)
    modifies page
    ensures fresh(next)
    ensures next.State() == old(page.State()) && next.storage == page.storage
  {
    page.SaveState();
    next := new TargetStore(page.storage);
    var ok := next.LoadState();
  }
}
