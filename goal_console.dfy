/** The goal console: goals with sub-goals, a form for new goals, a progress figure per goal. */
module GoalConsole {
  import opened Wrappers
  import opened Text
  import opened Seqs
  import opened Rounding

  datatype SubGoal = SubGoal(id: string, title: string, completed: bool)

  datatype GoalType = LongTerm | ShortTerm

  /** `deadline` is a day number when present. */
  datatype Goal = Goal(id: string, title: string, description: string, goalType: GoalType,
                       progress: int, subGoals: seq<SubGoal>, deadline: Option<int>)

  /** The new-goal form. */
  datatype GoalForm = GoalForm(title: string, description: string, goalType: GoalType)

  const EmptyForm: GoalForm := GoalForm("", "", ShortTerm)

  /** `addGoal` with the `Date.now()` id supplied: a blank title changes nothing; otherwise the goal
      is appended as typed, with no progress and no sub-goals, and the form is cleared. */
  function AddGoal(goals: seq<Goal>, form: GoalForm, id: string): (r: (seq<Goal>, GoalForm))
    ensures IsBlank(form.title) ==> r == (goals, form)
    ensures !IsBlank(form.title) ==> r.1 == EmptyForm && |r.0| == |goals| + 1 && r.0[..|goals|] == goals
    ensures !IsBlank(form.title) ==> var g := r.0[|goals|];
      g.id == id && g.title == form.title && g.description == form.description
      && g.goalType == form.goalType && g.progress == 0 && g.subGoals == [] && g.deadline.None?
  {
    if IsBlank(form.title) then (goals, form)
    else (goals + [Goal(id, form.title, form.description, form.goalType, 0, [], None)], EmptyForm)
  }

  function HasNotId(id: string): Goal -> bool
  {
    (g: Goal) => g.id != id
  }

  /** `deleteGoal`: every goal with the id goes, the rest keep their order. */
  function DeleteGoal(goals: seq<Goal>, id: string): (r: seq<Goal>)
    ensures forall i :: 0 <= i < |r| ==> r[i].id != id && r[i] in goals
    ensures forall i :: 0 <= i < |goals| && goals[i].id != id ==> goals[i] in r
    ensures forall g :: multiset(r)[g] == if g.id != id then multiset(goals)[g] else 0
  {
    var r := Filter(goals, HasNotId(id));
    assert forall g :: multiset(r)[g] == if g.id != id then multiset(goals)[g] else 0 by {
      forall g ensures multiset(r)[g] == if g.id != id then multiset(goals)[g] else 0 {
        FilterCount(goals, HasNotId(id), g);
      }
    }
    r
  }

  /** Deleting keeps the surviving goals in their original order. */
  lemma DeleteGoalOrder(goals: seq<Goal>, id: string)
    ensures IsSubsequence(DeleteGoal(goals, id), goals)
  {
    FilterIsSubsequence(goals, HasNotId(id));
  }

  /** Deleting a goal just added, under its own id, gives what deleting that id would have given before. */
  lemma {:induction false} DeleteUndoesAdd(goals: seq<Goal>, form: GoalForm, id: string)
    ensures DeleteGoal(AddGoal(goals, form, id).0, id) == DeleteGoal(goals, id)
  {
    if !IsBlank(form.title) {
      var g := Goal(id, form.title, form.description, form.goalType, 0, [], None);
      FilterAppend(goals, [g], HasNotId(id));
    }
  }

  /** `addSubGoal` with the id supplied: a blank title changes nothing; otherwise the goals with the
      given id get one more, uncompleted sub-goal at the end, and nothing else changes. */
  function AddSubGoal(goals: seq<Goal>, goalId: string, title: string, subId: string): (r: seq<Goal>)
    ensures IsBlank(title) ==> r == goals
    ensures |r| == |goals|
    ensures forall i :: 0 <= i < |goals| && goals[i].id != goalId ==> r[i] == goals[i]
    ensures !IsBlank(title) ==> forall i :: 0 <= i < |goals| && goals[i].id == goalId ==>
      r[i] == goals[i].(subGoals := goals[i].subGoals + [SubGoal(subId, title, false)])
  {
    if IsBlank(title) then goals
    else
      seq(|goals|, i requires 0 <= i < |goals| =>
        if goals[i].id == goalId
        then goals[i].(subGoals := goals[i].subGoals + [SubGoal(subId, title, false)])
        else goals[i])
  }

  /** `subGoals.filter(sg => sg.completed).length`. */
  function CompletedCount(subs: seq<SubGoal>): (k: nat)
    ensures k <= |subs|
    ensures (exists i :: 0 <= i < |subs| && !subs[i].completed) ==> k < |subs|
  {
    if subs == [] then 0
    else (if subs[0].completed then 1 else 0) + CompletedCount(subs[1..])
  }

  /** `subGoals.find(sg => sg.id === id)`. */
  function FindSub(subs: seq<SubGoal>, id: string): (r: Option<SubGoal>)
    ensures r.Some? ==> exists i :: 0 <= i < |subs| && subs[i] == r.value && r.value.id == id
    ensures r.None? ==> forall i :: 0 <= i < |subs| ==> subs[i].id != id
  {
    if subs == [] then None
    else if subs[0].id == id then Some(subs[0])
    else
      var r := FindSub(subs[1..], id);
      assert r.Some? ==> subs[1..][0..|subs| - 1] == subs[1..];
      r
  }

  /** The sub-goals with the matching one(s) flipped. */
  function FlipSub(subs: seq<SubGoal>, subId: string): (r: seq<SubGoal>)
    ensures |r| == |subs|
    ensures forall i :: 0 <= i < |subs| ==>
      r[i].id == subs[i].id && r[i].title == subs[i].title
      && (r[i].completed != subs[i].completed <==> subs[i].id == subId)
  {
    seq(|subs|, i requires 0 <= i < |subs| =>
      if subs[i].id == subId then subs[i].(completed := !subs[i].completed) else subs[i])
  }

  /** The progress `toggleSubGoal` computes, as written: the completed count BEFORE the toggle, plus one
      unless the sub-goal found was already completed. */
  function ProgressAsWritten(subs: seq<SubGoal>, subId: string): int
    requires |subs| > 0
  {
    var found := FindSub(subs, subId);
    var d := if found.Some? && found.value.completed then 0 else 1;
    RoundDiv(100 * (CompletedCount(subs) + d), |subs|)
  }

  /** The progress evidently intended: the rounded share of sub-goals completed AFTER the toggle. */
  function ProgressAfter(subs: seq<SubGoal>): int
    requires |subs| > 0
  {
    RoundDiv(100 * CompletedCount(subs), |subs|)
  }

  /** The component only calls `toggleSubGoal` from the checkbox of an existing sub-goal, so the
      goal it names has at least one. */
  ghost predicate HasSubGoals(goals: seq<Goal>, goalId: string)
  {
    forall i :: 0 <= i < |goals| && goals[i].id == goalId ==> |goals[i].subGoals| > 0
  }

  /** `toggleSubGoal` as written in the component. */
  function ToggleSubGoal(goals: seq<Goal>, goalId: string, subId: string): (r: seq<Goal>)
    requires HasSubGoals(goals, goalId)
    ensures |r| == |goals|
    ensures forall i :: 0 <= i < |goals| && goals[i].id != goalId ==> r[i] == goals[i]
    ensures forall i :: 0 <= i < |goals| && goals[i].id == goalId ==>
      r[i] == goals[i].(subGoals := FlipSub(goals[i].subGoals, subId),
                        progress := ProgressAsWritten(goals[i].subGoals, subId))
  {
    seq(|goals|, i requires 0 <= i < |goals| =>
      if goals[i].id == goalId
      then goals[i].(subGoals := FlipSub(goals[i].subGoals, subId),
                     progress := ProgressAsWritten(goals[i].subGoals, subId))
      else goals[i])
  }

  /** The as-written progress: the rounded share (k + d) / n, which lies in 0..100 when the sub-goal
      exists; when it unchecks a completed sub-goal, progress is the share BEFORE the toggle. */
  lemma ProgressAsWrittenFacts(subs: seq<SubGoal>, subId: string)
    requires |subs| > 0
    ensures FindSub(subs, subId).Some? ==> 0 <= ProgressAsWritten(subs, subId) <= 100
    ensures FindSub(subs, subId).Some? && FindSub(subs, subId).value.completed ==>
      ProgressAsWritten(subs, subId) == ProgressAfter(subs)
  {
    var found := FindSub(subs, subId);
    var k := CompletedCount(subs);
    if found.Some? {
      var d := if found.value.completed then 0 else 1;
      assert k + d <= |subs|;
      RoundDivBounds(100 * (k + d), |subs|, 0, 100);
    }
  }

  /** Unchecking the only, completed sub-goal of a goal leaves its progress at 100. */
  lemma UncheckKeepsFullProgress()
    ensures var g := Goal("g", "t", "", ShortTerm, 100, [SubGoal("s", "x", true)], None);
      var r := ToggleSubGoal([g], "g", "s");
      !r[0].subGoals[0].completed && r[0].progress == 100 && CompletedCount(r[0].subGoals) == 0
  {
    var subs := [SubGoal("s", "x", true)];
    assert FindSub(subs, "s") == Some(subs[0]);
    assert CompletedCount(subs) == 1;
    var flipped := FlipSub(subs, "s");
    assert flipped == [SubGoal("s", "x", false)];
    assert CompletedCount(flipped) == 0;
  }

  /** One goal after the corrected toggle: sub-goals flipped, progress recomputed from them. */
  function RecomputedGoal(g: Goal, subId: string): (r: Goal)
    requires |g.subGoals| > 0
    ensures r == g.(subGoals := FlipSub(g.subGoals, subId), progress := ProgressAfter(FlipSub(g.subGoals, subId)))
    ensures 0 <= r.progress <= 100
  {
    var subs := FlipSub(g.subGoals, subId);
    RoundDivBounds(100 * CompletedCount(subs), |subs|, 0, 100);
    g.(subGoals := subs, progress := ProgressAfter(subs))
  }

  /** `toggleSubGoal` with the progress recomputed from the sub-goals after the toggle. */
  function ToggleSubGoalCorrected(goals: seq<Goal>, goalId: string, subId: string): (r: seq<Goal>)
    requires HasSubGoals(goals, goalId)
    ensures |r| == |goals|
    ensures forall i :: 0 <= i < |goals| && goals[i].id != goalId ==> r[i] == goals[i]
    ensures forall i :: 0 <= i < |goals| && goals[i].id == goalId ==>
      r[i] == goals[i].(subGoals := FlipSub(goals[i].subGoals, subId),
                        progress := ProgressAfter(FlipSub(goals[i].subGoals, subId)))
      && 0 <= r[i].progress <= 100
  {
    seq(|goals|, i requires 0 <= i < |goals| =>
      if goals[i].id == goalId then RecomputedGoal(goals[i], subId) else goals[i])
  }

  /** Progress that agrees with the sub-goals. */
  ghost predicate ProgressConsistent(g: Goal)
  {
    |g.subGoals| > 0 ==> g.progress == ProgressAfter(g.subGoals)
  }

  /** The corrected toggle keeps every goal's progress in agreement with its sub-goals, and toggling
      twice restores the sub-goals and the progress. */
  lemma CorrectedToggleFacts(goals: seq<Goal>, goalId: string, subId: string)
    requires HasSubGoals(goals, goalId)
    requires forall i :: 0 <= i < |goals| ==> ProgressConsistent(goals[i])
    ensures var r := ToggleSubGoalCorrected(goals, goalId, subId);
      && (forall i :: 0 <= i < |r| ==> ProgressConsistent(r[i]))
      && HasSubGoals(r, goalId)
      && ToggleSubGoalCorrected(r, goalId, subId) == goals
  {
    var r := ToggleSubGoalCorrected(goals, goalId, subId);
    var rr := ToggleSubGoalCorrected(r, goalId, subId);
    forall i | 0 <= i < |goals| ensures rr[i] == goals[i] {
      if goals[i].id == goalId {
        FlipTwice(goals[i].subGoals, subId);
      }
    }
  }

  lemma FlipTwice(subs: seq<SubGoal>, subId: string)
    ensures FlipSub(FlipSub(subs, subId), subId) == subs
  {
    var f := FlipSub(FlipSub(subs, subId), subId);
    assert forall i :: 0 <= i < |subs| ==> f[i] == subs[i];
  }
}
