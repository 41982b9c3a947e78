/**
 * The second dashboard variant (script_Version5.js): the page signs in with a
 * user code, keeps a global `appState` of personal goals, team goals and
 * completed goal ids, and stores each user's goals in a partition of their own,
 * `userData_<code>`, beside the whole state under `zeroHourAppState` and the
 * last code under `userCode`.
 */
module Goals {
  import opened Options
  import Lists
  import Metrics
  import Text

  /** The storage key of the whole state. */
  const APP_KEY := "zeroHourAppState"
  /** The storage key of the last code signed in with. */
  const CODE_KEY := "userCode"
  /** The prefix of the key of a user's partition. */
  const USER_KEY_PREFIX := "userData_"
  /** The business selected before any is chosen. */
  const DEFAULT_BUSINESS := "viraaj"
  /** The shortest code the login accepts, in UTF-16 code units. */
  const MIN_CODE_LENGTH := 3

  /** A personal goal; `id` is `Date.now()` and `createdAt` an ISO time, both taken at creation. */
  datatype Goal = Goal(id: int, name: string, date: string, category: string, description: string,
                       completed: bool, createdAt: string)

  /** A team goal; its members are the codes of the users in it (`null` when none was set). */
  datatype TeamGoal = TeamGoal(id: int, name: string, teamCode: string, deadline: string,
                               members: seq<Option<string>>, progress: int, createdAt: string)

  function GoalId(g: Goal): (id: int) {
    g.id
  }

  function TeamGoalId(g: TeamGoal): (id: int) {
    g.id
  }

  /** The value of `appState`, as it is serialised. */
  datatype AppState = AppState(userCode: Option<string>, personalGoals: seq<Goal>, teamGoals: seq<TeamGoal>,
                               completedGoals: seq<int>, currentBusiness: string)

  /**
   * A user's partition, as `saveUserData` writes it. A list field is `None` when
   * the stored object lacks it; `lastUpdate` is the ISO time of the save.
   */
  datatype UserData = UserData(personalGoals: Option<seq<Goal>>, teamGoals: Option<seq<TeamGoal>>,
                               completedGoals: Option<seq<int>>, lastUpdate: string)

  /**
   * A storage value: the text `JSON.stringify` makes of the whole state or of a
   * user's partition, or raw text. Under the two keys that are parsed, raw text
   * stands for text `JSON.parse` rejects (the empty string aside, which is never
   * parsed); under `userCode`, which is never parsed, it is the code itself.
   */
  datatype Stored = AppDocument(state: AppState) | UserDocument(data: UserData) | Text(text: string)

  /** What `getItem` followed by `if (saved) JSON.parse(saved)` makes of a key. */
  datatype Entry = Missing | App(state: AppState) | User(data: UserData) | Unparsable

  function ReadEntry(storage: map<string, Stored>, key: string): (r: Entry)
    ensures r.Missing? <==> key !in storage || storage[key] == Text("")
    ensures r.App? <==> key in storage && storage[key].AppDocument?
    ensures r.App? ==> r.state == storage[key].state
    ensures r.User? <==> key in storage && storage[key].UserDocument?
    ensures r.User? ==> r.data == storage[key].data
  {
    if key !in storage then Missing
    else match storage[key]
      case AppDocument(s) => App(s)
      case UserDocument(d) => User(d)
      case Text(t) => if t == "" then Missing else Unparsable
  }

  /** JavaScript truthiness of a code: present and not the empty string. */
  predicate IsSet(code: Option<string>) {
    code.Some? && code.value != ""
  }

  /** `localStorage.getItem('userCode')`, when it is truthy. */
  function StoredCode(storage: map<string, Stored>): (r: Option<string>)
    ensures r.Some? <==> CODE_KEY in storage && storage[CODE_KEY].Text? && storage[CODE_KEY].text != ""
    ensures r.Some? ==> IsSet(r) && r.value == storage[CODE_KEY].text
  {
    if CODE_KEY in storage && storage[CODE_KEY].Text? && storage[CODE_KEY].text != ""
    then Some(storage[CODE_KEY].text) else None
  }

  /**
   * `loadState`: a saved state replaces the current one wholesale (a parse failure
   * throws before anything is assigned); then a truthy stored code overrides the
   * state's code.
   */
  function LoadedState(current: AppState, storage: map<string, Stored>): (r: Result<AppState>)
    ensures r.Thrown? <==> ReadEntry(storage, APP_KEY).Unparsable? || ReadEntry(storage, APP_KEY).User?
    ensures r.Ok? ==> var base := if ReadEntry(storage, APP_KEY).App? then storage[APP_KEY].state else current;
      && r.value.personalGoals == base.personalGoals
      && r.value.teamGoals == base.teamGoals
      && r.value.completedGoals == base.completedGoals
      && r.value.currentBusiness == base.currentBusiness
      && r.value.userCode == (if StoredCode(storage).Some? then StoredCode(storage) else base.userCode)
  {
    var base :=
      match ReadEntry(storage, APP_KEY)
      case Missing => Ok(current)
      case App(s) => Ok(s)
      case _ => Thrown;
    match base
    case Thrown => Thrown
    case Ok(s) => if StoredCode(storage).Some? then Ok(s.(userCode := StoredCode(storage))) else Ok(s)
  }

  /** `saveState`: the whole state under its key and, when it has a code, the code under its own. */
  function SavedState(storage: map<string, Stored>, s: AppState): (r: map<string, Stored>)
    ensures r.Keys == storage.Keys + {APP_KEY} + (if IsSet(s.userCode) then {CODE_KEY} else {})
    ensures r[APP_KEY] == AppDocument(s)
    ensures IsSet(s.userCode) ==> r[CODE_KEY] == Text(s.userCode.value)
    ensures forall k :: k in storage && k != APP_KEY && (k != CODE_KEY || !IsSet(s.userCode)) ==> r[k] == storage[k]
  {
    var written := storage[APP_KEY := AppDocument(s)];
    if IsSet(s.userCode) then written[CODE_KEY := Text(s.userCode.value)] else written
  }

  /**
   * Saving and loading gives the saved state back, except when the state has no
   * code and an older truthy code is still stored: that code is then put back.
   */
  lemma SaveLoadRoundTrip(storage: map<string, Stored>, s: AppState, current: AppState)
    ensures LoadedState(current, SavedState(storage, s)) == Ok(s) <==> IsSet(s.userCode) || StoredCode(storage).None?
  {
    var saved := SavedState(storage, s);
    assert ReadEntry(saved, APP_KEY) == App(s);
    if IsSet(s.userCode) {
      assert StoredCode(saved) == s.userCode;
    } else {
      assert StoredCode(saved) == StoredCode(storage);
      if StoredCode(storage).Some? {
        assert LoadedState(current, saved).value.userCode == StoredCode(storage);
      }
    }
  }

  /** The key of a user's partition. */
  function UserKey(code: string): (k: string)
    ensures k == USER_KEY_PREFIX + code
    ensures k != APP_KEY && k != CODE_KEY
  {
    var k := USER_KEY_PREFIX + code;
    assert k[0] == 'u' && k[4] == 'D';
    k
  }

  /** Different codes have different partitions. */
  lemma UserKeyInjective(a: string, b: string)
    requires UserKey(a) == UserKey(b)
    ensures a == b
  {
    assert a == UserKey(a)[|USER_KEY_PREFIX|..];
    assert b == UserKey(b)[|USER_KEY_PREFIX|..];
  }

  /** The partition `saveUserData` writes for `s`. */
  function UserDataOf(s: AppState, savedAt: string): (d: UserData) {
    UserData(Some(s.personalGoals), Some(s.teamGoals), Some(s.completedGoals), savedAt)
  }

  /**
   * `saveUserData`: nothing without a code; otherwise the user's three lists and
   * the save time under the user's key, every other key as it was.
   */
  function SavedUserData(storage: map<string, Stored>, s: AppState, savedAt: string): (r: map<string, Stored>)
    ensures !IsSet(s.userCode) ==> r == storage
    ensures IsSet(s.userCode) ==> var key := UserKey(s.userCode.value);
      && r.Keys == storage.Keys + {key}
      && r[key] == UserDocument(UserDataOf(s, savedAt))
      && forall k :: k in storage && k != key ==> r[k] == storage[k]
  {
    if IsSet(s.userCode) then storage[UserKey(s.userCode.value) := UserDocument(UserDataOf(s, savedAt))]
    else storage
  }

  /**
   * `loadUserData(code)`: a saved partition replaces the three lists, a missing
   * list becoming empty; nothing saved, nothing changes; unparsable, it throws.
   * The code and the business are never touched.
   */
  function LoadedUserData(s: AppState, storage: map<string, Stored>, code: string): (r: Result<AppState>)
    ensures r.Thrown? <==> ReadEntry(storage, UserKey(code)).Unparsable? || ReadEntry(storage, UserKey(code)).App?
    ensures ReadEntry(storage, UserKey(code)).Missing? ==> r == Ok(s)
    ensures r.Ok? ==> r.value.userCode == s.userCode && r.value.currentBusiness == s.currentBusiness
    ensures ReadEntry(storage, UserKey(code)).User? ==> var d := storage[UserKey(code)].data;
      && r.Ok?
      && r.value.personalGoals == d.personalGoals.GetOr([])
      && r.value.teamGoals == d.teamGoals.GetOr([])
      && r.value.completedGoals == d.completedGoals.GetOr([])
  {
    match ReadEntry(storage, UserKey(code))
    case Missing => Ok(s)
    case User(d) =>
      Ok(s.(personalGoals := d.personalGoals.GetOr([]), teamGoals := d.teamGoals.GetOr([]),
            completedGoals := d.completedGoals.GetOr([])))
    case _ => Thrown
  }

  /** A user's saved partition loads back the lists that were saved, into any state. */
  lemma UserDataRoundTrip(storage: map<string, Stored>, s: AppState, savedAt: string, t: AppState)
    requires IsSet(s.userCode)
    ensures LoadedUserData(t, SavedUserData(storage, s, savedAt), s.userCode.value)
      == Ok(t.(personalGoals := s.personalGoals, teamGoals := s.teamGoals, completedGoals := s.completedGoals))
  {
    var saved := SavedUserData(storage, s, savedAt);
    assert ReadEntry(saved, UserKey(s.userCode.value)) == User(UserDataOf(s, savedAt));
  }

  /** Saving one user's partition leaves every other user's partition as it was. */
  lemma OtherUsersUntouched(storage: map<string, Stored>, s: AppState, savedAt: string, other: string)
    requires !IsSet(s.userCode) || other != s.userCode.value
    ensures ReadEntry(SavedUserData(storage, s, savedAt), UserKey(other)) == ReadEntry(storage, UserKey(other))
  {
    if IsSet(s.userCode) && UserKey(other) == UserKey(s.userCode.value) {
      UserKeyInjective(other, s.userCode.value);
    }
  }

  /** Saving a partition changes nothing `loadState` reads. */
  lemma UserSaveKeepsAppState(storage: map<string, Stored>, s: AppState, savedAt: string, current: AppState)
    ensures LoadedState(current, SavedUserData(storage, s, savedAt)) == LoadedState(current, storage)
  {
    var saved := SavedUserData(storage, s, savedAt);
    assert ReadEntry(saved, APP_KEY) == ReadEntry(storage, APP_KEY);
    assert StoredCode(saved) == StoredCode(storage);
  }

  /** Saving the whole state changes nothing `loadUserData` reads. */
  lemma StateSaveKeepsUserData(storage: map<string, Stored>, s: AppState, code: string, t: AppState)
    ensures LoadedUserData(t, SavedState(storage, s), code) == LoadedUserData(t, storage, code)
  {
    assert ReadEntry(SavedState(storage, s), UserKey(code)) == ReadEntry(storage, UserKey(code));
  }

  /** Storing the code and saving the state, as the login does, keeps the partition it then loads. */
  lemma LoginKeepsPartition(storage: map<string, Stored>, c: string, s: AppState)
    ensures LoadedUserData(s, SavedState(storage[CODE_KEY := Text(c)], s), c) == LoadedUserData(s, storage, c)
  {
    var withCode := storage[CODE_KEY := Text(c)];
    StateSaveKeepsUserData(withCode, s, c, s);
    assert ReadEntry(withCode, UserKey(c)) == ReadEntry(storage, UserKey(c));
  }

  /**
   * The code `loginWithCode` uses: the one it was given when that is truthy,
   * otherwise what was typed, upper-cased and then trimmed.
   */
  function ChosenCode(code: Option<string>, typed: string): (c: string) {
    if IsSet(code) then code.value else Text.Trim(Text.ToUpper(typed))
  }

  /**
   * A code passed in is used as given; a typed one comes out with no lower-case
   * letter, no white space at either end, and no longer than what was typed.
   */
  lemma ChosenCodeShape(code: Option<string>, typed: string)
    ensures IsSet(code) ==> ChosenCode(code, typed) == code.value
    ensures !IsSet(code) ==> var c := ChosenCode(code, typed);
      && (forall i :: 0 <= i < |c| ==> !Text.IsLower(c[i]))
      && (c == [] || (!Text.IsSpace(c[0]) && !Text.IsSpace(c[|c| - 1])))
      && |c| <= |typed|
  {
    if !IsSet(code) {
      assert ChosenCode(code, typed) == Text.Trim(Text.ToUpper(typed));
      NormalisedShape(typed);
    }
  }

  /** What upper-casing and then trimming leaves. */
  lemma NormalisedShape(typed: string)
    ensures var c := Text.Trim(Text.ToUpper(typed));
      && (forall i :: 0 <= i < |c| ==> !Text.IsLower(c[i]))
      && (c == [] || (!Text.IsSpace(c[0]) && !Text.IsSpace(c[|c| - 1])))
      && |c| <= |typed|
  {
    TrimKeepsUpper(Text.ToUpper(typed));
  }

  /** The login's check: a non-empty code of at least three UTF-16 code units. */
  predicate ValidCode(c: string) {
    c != "" && Text.Utf16Length(c) >= MIN_CODE_LENGTH
  }

  /** Three characters always pass the check; a single character never does. */
  lemma ValidCodeLength(c: string)
    ensures |c| >= 3 ==> ValidCode(c)
    ensures ValidCode(c) ==> |c| >= 2
  {
  }

  /** Upper-casing a string without lower-case letters changes nothing. */
  lemma {:induction false} ToUpperNoLower(s: string)
    requires forall i :: 0 <= i < |s| ==> !Text.IsLower(s[i])
    ensures Text.ToUpper(s) == s
  {
    if s != [] {
      ToUpperNoLower(s[1..]);
    }
  }

  /**
   * A typed code is normalised once and for all: typing the code the login
   * produced gives the same code again.
   */
  lemma TypedCodeNormalised(typed: string)
    ensures var c := ChosenCode(None, typed); ChosenCode(None, c) == c
  {
    var c := Text.Trim(Text.ToUpper(typed));
    assert ChosenCode(None, typed) == c;
    NormalisedIsFixed(typed);
    assert ChosenCode(None, c) == Text.Trim(Text.ToUpper(c));
  }

  /** Upper-casing and trimming an upper-cased, trimmed string changes nothing. */
  lemma NormalisedIsFixed(typed: string)
    ensures var c := Text.Trim(Text.ToUpper(typed)); Text.Trim(Text.ToUpper(c)) == c
  {
    var upper := Text.ToUpper(typed);
    var c := Text.Trim(upper);
    TrimKeepsUpper(upper);
    ToUpperNoLower(c);
    Text.TrimIdempotent(upper);
  }

  /** Trimming a string without lower-case letters leaves none. */
  lemma TrimKeepsUpper(s: string)
    requires forall i :: 0 <= i < |s| ==> !Text.IsLower(s[i])
    ensures forall i :: 0 <= i < |Text.Trim(s)| ==> !Text.IsLower(Text.Trim(s)[i])
  {
    var r := Text.Trim(s);
    var cut := |s| - |Text.TrimStart(s)|;
    SliceKeepsUpper(s, cut, cut + |r|);
  }

  /** A slice of a string without lower-case letters has none either. */
  lemma SliceKeepsUpper(s: string, lo: int, hi: int)
    requires 0 <= lo <= hi <= |s|
    requires forall i :: 0 <= i < |s| ==> !Text.IsLower(s[i])
    ensures forall i :: 0 <= i < hi - lo ==> !Text.IsLower(s[lo..hi][i])
  {
    forall i | 0 <= i < hi - lo ensures !Text.IsLower(s[lo..hi][i]) {
      assert s[lo..hi][i] == s[lo + i];
    }
  }

  /** The profile's initial: the first character of the code (`substring(0, 1)`). */
  function Initial(code: string): (r: string)
    ensures |r| == if code == "" then 0 else 1
    ensures r == code[..|r|]
  {
    if code == "" then "" else code[..1]
  }

  /** The outcome of `loginWithCode`. */
  datatype Login = Rejected | LoadFailed | SignedIn(initial: string)

  /** The personal goal form's name, date and category are all filled. */
  predicate GoalFilled(name: string, date: string, category: string) {
    name != "" && date != "" && category != ""
  }

  /** The completed list has no duplicates and names only existing personal goals. */
  predicate Consistent(s: AppState) {
    Lists.Tracks(s.personalGoals, GoalId, s.completedGoals)
  }

  /** No two personal goals share an id. */
  predicate UniqueIds(goals: seq<Goal>) {
    Lists.NoDup(Lists.Keys(goals, GoalId))
  }

  /**
   * `updateMetrics`: personal goals, completed, in progress and the success rate;
   * for a consistent state the in-progress count and the rate stay in range.
   */
  function CurrentMetrics(s: AppState): (m: Metrics.Summary)
    ensures m.total == |s.personalGoals| && m.completed == |s.completedGoals|
    ensures m.inProgress == m.total - m.completed
    ensures m.successRate == Metrics.SuccessRate(|s.completedGoals|, |s.personalGoals|)
    ensures Consistent(s) ==> 0 <= m.inProgress <= m.total && 0 <= m.successRate <= 100
  {
    if Consistent(s) then
      Lists.TracksBound(s.personalGoals, GoalId, s.completedGoals);
      Metrics.Summarize(|s.completedGoals|, |s.personalGoals|)
    else
      Metrics.Summarize(|s.completedGoals|, |s.personalGoals|)
  }

  /** The page: the global `appState` and the browser's storage. */
  class GoalStore {
    var userCode: Option<string>
    var personalGoals: seq<Goal>
    var teamGoals: seq<TeamGoal>
    var completedGoals: seq<int>
    var currentBusiness: string
    var storage: map<string, Stored>

    function State(): AppState
      reads this
    {
      AppState(userCode, personalGoals, teamGoals, completedGoals, currentBusiness)
    }

    /** A fresh page over the storage the browser already holds, before `loadState`. */
    constructor(saved: map<string, Stored>)
      ensures State() == AppState(None, [], [], [], DEFAULT_BUSINESS) && storage == saved
    {
      userCode := None;
      personalGoals := [];
      teamGoals := [];
      completedGoals := [];
      currentBusiness := DEFAULT_BUSINESS;
      storage := saved;
    }

    /** `loadState`; `ok` is false when `JSON.parse` throws, and then nothing changes. */
    method LoadState() returns (ok: bool)
      modifies this
      ensures storage == old(storage)
      ensures ok <==> LoadedState(old(State()), old(storage)).Ok?
      ensures ok ==> State() == LoadedState(old(State()), old(storage)).value
      ensures !ok ==> State() == old(State())
    {
      var loaded := LoadedState(State(), storage);
      match loaded {
        case Thrown => ok := false;
        case Ok(s) =>
          userCode, personalGoals, teamGoals, completedGoals, currentBusiness :=
            s.userCode, s.personalGoals, s.teamGoals, s.completedGoals, s.currentBusiness;
          ok := true;
      }
    }

    /** `saveState`. */
    method SaveState()
      modifies this`storage
      ensures storage == SavedState(old(storage), State())
    {
      storage := storage[APP_KEY := AppDocument(State())];
      if IsSet(userCode) {
        storage := storage[CODE_KEY := Text(userCode.value)];
      }
    }

    /** `loadUserData(code)`; `ok` is false when `JSON.parse` throws, and then nothing changes. */
    method LoadUserData(code: string) returns (ok: bool)
      modifies this
      ensures storage == old(storage)
      ensures ok <==> LoadedUserData(old(State()), old(storage), code).Ok?
      ensures ok ==> State() == LoadedUserData(old(State()), old(storage), code).value
      ensures !ok ==> State() == old(State())
    {
      var loaded := LoadedUserData(State(), storage, code);
      match loaded {
        case Thrown => ok := false;
        case Ok(s) =>
          personalGoals, teamGoals, completedGoals := s.personalGoals, s.teamGoals, s.completedGoals;
          ok := true;
      }
    }

    /** `saveUserData`, with the time of the save given. */
    method SaveUserData(savedAt: string)
      modifies this`storage
      ensures storage == SavedUserData(old(storage), State(), savedAt)
    {
      if IsSet(userCode) {
        storage := storage[UserKey(userCode.value) := UserDocument(UserDataOf(State(), savedAt))];
      }
    }

    /**
     * `loginWithCode(code)`, where `typed` is the login field. A code that fails
     * the check is rejected and nothing changes; a code that passes signs in.
     */
    method LoginWithCode(code: Option<string>, typed: string) returns (outcome: Login)
      modifies this
      ensures !ValidCode(ChosenCode(code, typed)) ==>
        outcome == Rejected && State() == old(State()) && storage == old(storage)
      ensures var c := ChosenCode(code, typed); var signed := old(State()).(userCode := Some(c));
        ValidCode(c) ==> storage == SavedState(old(storage)[CODE_KEY := Text(c)], signed)
      ensures var c := ChosenCode(code, typed); var signed := old(State()).(userCode := Some(c));
        ValidCode(c) ==> match LoadedUserData(signed, old(storage), c)
          case Ok(s) => outcome == SignedIn(Initial(c)) && State() == s
          case Thrown => outcome == LoadFailed && State() == signed
    {
      var c := ChosenCode(code, typed);
      if !ValidCode(c) {
        return Rejected;
      }
      outcome := SignIn(c);
    }

    /**
     * The rest of `loginWithCode` once the code passes: the code becomes the
     * state's and is stored under its own key, the whole state is saved, and the
     * user's lists are loaded from the partition as it was stored before; the
     * profile then shows the code's initial. When the partition does not parse,
     * the load throws and the code stays set.
     */
    method SignIn(c: string) returns (outcome: Login)
      modifies this
      ensures var signed := old(State()).(userCode := Some(c));
        storage == SavedState(old(storage)[CODE_KEY := Text(c)], signed)
      ensures var signed := old(State()).(userCode := Some(c));
        match LoadedUserData(signed, old(storage), c)
          case Ok(s) => outcome == SignedIn(Initial(c)) && State() == s
          case Thrown => outcome == LoadFailed && State() == signed
    {
      ghost var before := storage;
      ghost var signed := State().(userCode := Some(c));
      userCode := Some(c);
      assert State() == signed;
      storage := storage[CODE_KEY := Text(c)];
      SaveState();
      ghost var saved := storage;
      assert saved == SavedState(before[CODE_KEY := Text(c)], signed);
      LoginKeepsPartition(before, c, signed);
      var ok := LoadUserData(c);
      assert storage == saved;
      if !ok {
        return LoadFailed;
      }
      outcome := SignedIn(Initial(c));
    }

    /**
     * The personal goal form: with name, date and category filled, a new goal,
     * not completed, is appended and the user's partition saved; otherwise
     * nothing changes.
     */
    method AddPersonalGoal(name: string, date: string, category: string, description: string,
                           id: int, createdAt: string, savedAt: string) returns (added: bool)
      modifies this
      ensures added <==> GoalFilled(name, date, category)
      ensures added ==> personalGoals == old(personalGoals) + [Goal(id, name, date, category, description, false, createdAt)]
      ensures added ==> storage == SavedUserData(old(storage), State(), savedAt)
      ensures !added ==> personalGoals == old(personalGoals) && storage == old(storage)
      ensures userCode == old(userCode) && teamGoals == old(teamGoals)
      ensures completedGoals == old(completedGoals) && currentBusiness == old(currentBusiness)
      ensures old(Consistent(State())) ==> Consistent(State())
      ensures old(UniqueIds(personalGoals)) && id !in old(Lists.Keys(personalGoals, GoalId)) ==> UniqueIds(personalGoals)
    {
      if !GoalFilled(name, date, category) {
        return false;
      }
      var goal := Goal(id, name, date, category, description, false, createdAt);
      Lists.KeysAppend(personalGoals, GoalId, goal);
      if Consistent(State()) {
        Lists.TracksAppend(personalGoals, GoalId, completedGoals, goal);
      }
      personalGoals := personalGoals + [goal];
      SaveUserData(savedAt);
      added := true;
    }

    /**
     * `completeGoal`: the id is appended unless already present, and the
     * partition saved only when something changed.
     */
    method CompleteGoal(goalId: int, savedAt: string)
      modifies this
      ensures completedGoals == Lists.AddOnce(old(completedGoals), goalId)
      ensures userCode == old(userCode) && personalGoals == old(personalGoals)
      ensures teamGoals == old(teamGoals) && currentBusiness == old(currentBusiness)
      ensures goalId in old(completedGoals) ==> storage == old(storage)
      ensures goalId !in old(completedGoals) ==> storage == SavedUserData(old(storage), State(), savedAt)
      ensures old(Consistent(State())) && goalId in old(Lists.Keys(personalGoals, GoalId)) ==> Consistent(State())
    {
      if goalId !in completedGoals {
        if Consistent(State()) && goalId in Lists.Keys(personalGoals, GoalId) {
          Lists.TracksAddOnce(personalGoals, GoalId, completedGoals, goalId);
        }
        completedGoals := completedGoals + [goalId];
        SaveUserData(savedAt);
      }
    }

    /**
     * `deleteGoal`: once confirmed, every personal goal with the id and every
     * occurrence of the id among the completed ones are dropped and the partition
     * saved; declined, nothing changes.
     */
    method DeleteGoal(goalId: int, confirmed: bool, savedAt: string)
      modifies this
      ensures confirmed ==> personalGoals == Lists.RemoveKey(old(personalGoals), GoalId, goalId)
      ensures confirmed ==> completedGoals == Lists.Remove(old(completedGoals), goalId)
      ensures confirmed ==> storage == SavedUserData(old(storage), State(), savedAt)
      ensures !confirmed ==> personalGoals == old(personalGoals) && completedGoals == old(completedGoals)
      ensures !confirmed ==> storage == old(storage)
      ensures userCode == old(userCode) && teamGoals == old(teamGoals) && currentBusiness == old(currentBusiness)
      ensures old(Consistent(State())) ==> Consistent(State())
      ensures old(UniqueIds(personalGoals)) ==> UniqueIds(personalGoals)
    {
      if confirmed {
        if Consistent(State()) {
          Lists.TracksRemove(personalGoals, GoalId, completedGoals, goalId);
        }
        if UniqueIds(personalGoals) {
          Lists.RemoveKeyUnique(personalGoals, GoalId, goalId);
        }
        personalGoals := Lists.RemoveKey(personalGoals, GoalId, goalId);
        completedGoals := Lists.Remove(completedGoals, goalId);
        SaveUserData(savedAt);
      }
    }

    /**
     * The team goal form: the team code is upper-cased (not trimmed); with name,
     * code and deadline filled, a team goal with the current user as its only
     * member and no progress is appended and the partition saved.
     */
    method AddTeamGoal(name: string, typedTeamCode: string, deadline: string,
                       id: int, createdAt: string, savedAt: string) returns (added: bool)
      modifies this
      ensures added <==> name != "" && typedTeamCode != "" && deadline != ""
      ensures added ==>
        teamGoals == old(teamGoals) + [TeamGoal(id, name, Text.ToUpper(typedTeamCode), deadline, [old(userCode)], 0, createdAt)]
      ensures added ==> storage == SavedUserData(old(storage), State(), savedAt)
      ensures !added ==> teamGoals == old(teamGoals) && storage == old(storage)
      ensures userCode == old(userCode) && personalGoals == old(personalGoals)
      ensures completedGoals == old(completedGoals) && currentBusiness == old(currentBusiness)
    {
      var teamCode := Text.ToUpper(typedTeamCode);
      if name == "" || teamCode == "" || deadline == "" {
        return false;
      }
      teamGoals := teamGoals + [TeamGoal(id, name, teamCode, deadline, [userCode], 0, createdAt)];
      SaveUserData(savedAt);
      added := true;
    }

    /** `deleteTeamGoal`: once confirmed, every team goal with the id is dropped and the partition saved. */
    method DeleteTeamGoal(goalId: int, confirmed: bool, savedAt: string)
      modifies this
      ensures confirmed ==> teamGoals == Lists.RemoveKey(old(teamGoals), TeamGoalId, goalId)
      ensures confirmed ==> storage == SavedUserData(old(storage), State(), savedAt)
      ensures !confirmed ==> teamGoals == old(teamGoals) && storage == old(storage)
      ensures userCode == old(userCode) && personalGoals == old(personalGoals)
      ensures completedGoals == old(completedGoals) && currentBusiness == old(currentBusiness)
    {
      if confirmed {
        teamGoals := Lists.RemoveKey(teamGoals, TeamGoalId, goalId);
        SaveUserData(savedAt);
      }
    }
  }
}
