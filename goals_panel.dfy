/** The goals side panel: which of the user's goals it offers, adding a new goal, and moving a
    goal into the current practice session. The remote store's answers are parameters. */
module Goals {
  import opened Wrappers
  import Text

  /** A goal as the panel holds it (the `id` and `createdAt` the panel reads and writes included). */
  datatype Goal = Goal(id: string, goal: string, duration: string, userId: string, createdAt: string)

  const NotAuthenticated := "User is not authenticated."
  const EmptyGoal := "Goal cannot be empty."
  const FetchFailed := "Failed to fetch goals."
  const AddFailed := "Failed to add goal."
  const LinkFailed := "Failed to add goal to session."

  /** `Array.prototype.filter`. */
  function Filter<T(!new)>(s: seq<T>, keep: T -> bool): (r: seq<T>)
    ensures |r| <= |s|
    ensures forall x :: x in r <==> x in s && keep(x)
  {
    if s == [] then [] else (if keep(s[0]) then [s[0]] else []) + Filter(s[1..], keep)
  }

  /** `filter` keeps the original order: filtering a concatenation filters each part in place. */
  lemma {:induction false} FilterAppend<T(!new)>(a: seq<T>, b: seq<T>, keep: T -> bool)
    ensures Filter(a + b, keep) == Filter(a, keep) + Filter(b, keep)
  {
    if a == [] {
      assert a + b == b;
    } else {
      assert (a + b)[0] == a[0];
      assert (a + b)[1..] == a[1..] + b;
      FilterAppend(a[1..], b, keep);
    }
  }

  /** Some goal in the list has this id (`list.find(g => g.id === id)` is truthy). */
  predicate HasId(goals: seq<Goal>, id: string) {
    exists g | g in goals :: g.id == id
  }

  /** In a session: the user's goals whose id no session goal carries. */
  function AvailableGoals(userGoals: seq<Goal>, sessionGoals: seq<Goal>): (r: seq<Goal>)
    ensures |r| <= |userGoals|
    ensures forall g :: g in r <==> g in userGoals && !HasId(sessionGoals, g.id)
  {
    Filter(userGoals, (g: Goal) => !HasId(sessionGoals, g.id))
  }

  /** What the panel lists once both fetches succeed: the available goals in a session, all the
      user's goals otherwise. */
  function GoalsToShow(sessionId: Option<string>, userGoals: seq<Goal>, sessionGoals: seq<Goal>): (r: seq<Goal>)
    ensures !IsSet(sessionId) ==> r == userGoals
    ensures IsSet(sessionId) ==> forall g :: g in r <==> g in userGoals && !HasId(sessionGoals, g.id)
  {
    if IsSet(sessionId) then AvailableGoals(userGoals, sessionGoals) else userGoals
  }

  /** The session filter keeps the user's order: a goal list split in two is filtered part by part. */
  lemma AvailableGoalsKeepsOrder(before: seq<Goal>, after: seq<Goal>, sessionGoals: seq<Goal>)
    ensures AvailableGoals(before + after, sessionGoals) ==
      AvailableGoals(before, sessionGoals) + AvailableGoals(after, sessionGoals)
  {
    FilterAppend(before, after, (g: Goal) => !HasId(sessionGoals, g.id));
  }

  /** `goals.filter(g => g.id !== id)` */
  function RemoveById(goals: seq<Goal>, id: string): (r: seq<Goal>)
    ensures !HasId(r, id)
    ensures forall g :: g in r <==> g in goals && g.id != id
  {
    Filter(goals, (g: Goal) => g.id != id)
  }

  /** Removing keeps the order of the remaining goals. */
  lemma RemoveByIdKeepsOrder(before: seq<Goal>, after: seq<Goal>, id: string)
    ensures RemoveById(before + after, id) == RemoveById(before, id) + RemoveById(after, id)
  {
    FilterAppend(before, after, (g: Goal) => g.id != id);
  }

  /** Removing a goal just added to the session leaves exactly the list the session filter gives
      for the session's goals with the added goal appended, provided session goals carry the id
      of the goal they were made from. */
  lemma {:induction false} RemoveAgreesWithRefetch(userGoals: seq<Goal>, sessionGoals: seq<Goal>, added: Goal)
    ensures RemoveById(AvailableGoals(userGoals, sessionGoals), added.id) ==
      AvailableGoals(userGoals, sessionGoals + [added])
  {
    if userGoals != [] {
      var g, rest := userGoals[0], userGoals[1..];
      var enlarged := sessionGoals + [added];
      assert HasId(enlarged, g.id) <==> HasId(sessionGoals, g.id) || g.id == added.id by {
        if g.id == added.id {
          assert added in enlarged;
        }
        if HasId(sessionGoals, g.id) {
          var h :| h in sessionGoals && h.id == g.id;
          assert h in enlarged;
        }
      }
      var head := if !HasId(sessionGoals, g.id) then [g] else [];
      assert AvailableGoals(userGoals, sessionGoals) == head + AvailableGoals(rest, sessionGoals);
      assert AvailableGoals(userGoals, enlarged) ==
        (if !HasId(enlarged, g.id) then [g] else []) + AvailableGoals(rest, enlarged);
      RemoveByIdKeepsOrder(head, AvailableGoals(rest, sessionGoals), added.id);
      assert RemoveById(head, added.id) == (if !HasId(enlarged, g.id) then [g] else []);
      RemoveAgreesWithRefetch(rest, sessionGoals, added);
    }
  }

  /** In a session, `handleAddGoal` links the new goal to the session and still prepends it to the
      available list, although the session filter leaves out every goal the session carries. */
  lemma LinkedGoalStaysListed(userGoals: seq<Goal>, sessionGoals: seq<Goal>, added: Goal)
    ensures added in [added] + AvailableGoals(userGoals, sessionGoals)
    ensures added !in AvailableGoals(userGoals, sessionGoals + [added])
  {
    assert added in sessionGoals + [added];
  }

  /** The goal `handleAddGoal` builds from what the store returned. */
  function NewGoal(goalId: string, text: string, uid: string, createdAt: string): (g: Goal)
    ensures g.id == goalId && g.userId == uid && g.createdAt == createdAt
    ensures g.duration == "0" && g.goal == Text.Trim(text) && Text.Trimmed(g.goal)
  {
    Goal(goalId, Text.Trim(text), "0", uid, createdAt)
  }

  /** The panel's state. `user` is the signed-in user's uid; `sessionId` is the panel's prop. */
  class GoalsPanel {
    const user: Option<string>
    const sessionId: Option<string>
    var goals: seq<Goal>
    var newGoal: string
    var loading: bool
    var adding: bool
    var error: Option<string>

    constructor (user: Option<string>, sessionId: Option<string>)
      ensures this.user == user && this.sessionId == sessionId
      ensures goals == [] && newGoal == "" && loading && !adding && error == None
    {
      this.user := user;
      this.sessionId := sessionId;
      goals := [];
      newGoal := "";
      loading := true;
      adding := false;
      error := None;
    }

    /** The mount effect. `userGoals` and `sessionGoals` are the store's answers (`None`: the call threw). */
    method FetchGoals(userGoals: Option<seq<Goal>>, sessionGoals: Option<seq<Goal>>)
      modifies this`goals, this`error, this`loading
      ensures !loading
      ensures user.None? ==> goals == old(goals) && error == old(error)
      ensures user.Some? && userGoals.Some? && !IsSet(sessionId) ==>
        goals == userGoals.value && error == old(error)
      ensures user.Some? && userGoals.Some? && IsSet(sessionId) && sessionGoals.Some? ==>
        goals == GoalsToShow(sessionId, userGoals.value, sessionGoals.value) && error == old(error)
      ensures user.Some? && (userGoals.None? || (IsSet(sessionId) && sessionGoals.None?)) ==>
        goals == old(goals) && error == Some(FetchFailed)
    {
      if user.Some? {
        if userGoals.None? {
          error := Some(FetchFailed);
        } else if IsSet(sessionId) {
          if sessionGoals.None? {
            error := Some(FetchFailed);
          } else {
            goals := AvailableGoals(userGoals.value, sessionGoals.value);
          }
        } else {
          goals := userGoals.value;
        }
      }
      loading := false;
    }

    /** `handleAddGoal`. `stored` is the id `addUserGoal` returned (`None`: it threw); `linked`
        says whether `addGoalToSession` succeeded (asked only in a session); `now` is the
        creation timestamp. */
    method HandleAddGoal(stored: Option<string>, linked: bool, now: string)
      modifies this`goals, this`newGoal, this`adding, this`error
      ensures user.None? ==>
        error == Some(NotAuthenticated) && goals == old(goals) && newGoal == old(newGoal) && adding == old(adding)
      ensures user.Some? && Text.Trim(old(newGoal)) == "" ==>
        error == Some(EmptyGoal) && goals == old(goals) && newGoal == old(newGoal) && adding == old(adding)
      ensures user.Some? && Text.Trim(old(newGoal)) != "" ==> !adding
      ensures user.Some? && Text.Trim(old(newGoal)) != "" && stored.Some? && (!IsSet(sessionId) || linked) ==>
        goals == [NewGoal(stored.value, old(newGoal), user.value, now)] + old(goals) &&
        newGoal == "" && error == None
      ensures user.Some? && Text.Trim(old(newGoal)) != "" && (stored.None? || (IsSet(sessionId) && !linked)) ==>
        goals == old(goals) && newGoal == old(newGoal) && error == Some(AddFailed)
    {
      if user.None? {
        error := Some(NotAuthenticated);
        return;
      }
      if Text.Trim(newGoal) == "" {
        error := Some(EmptyGoal);
        return;
      }
      adding := true;
      error := None;
      if stored.None? || (IsSet(sessionId) && !linked) {
        error := Some(AddFailed);
      } else {
        var addedGoal := NewGoal(stored.value, newGoal, user.value, now);
        goals := [addedGoal] + goals;
        newGoal := "";
      }
      adding := false;
    }

    /** The "Add" button beside a listed goal (rendered only in a session): on success the goal
        leaves the list, every other goal stays in order. */
    method HandleAddToSession(goalId: string, linked: bool)
      requires IsSet(sessionId)
      modifies this`goals, this`error
      ensures linked ==> goals == RemoveById(old(goals), goalId) && error == old(error)
      ensures !linked ==> goals == old(goals) && error == Some(LinkFailed)
    {
      if linked {
        goals := RemoveById(goals, goalId);
      } else {
        error := Some(LinkFailed);
      }
    }
  }
}
