/**
 * The dashboard's stat cards: the latest total score, the gap to the goal with
 * its message, and the number of bugs still waiting for review.  All of them
 * are derived from the store's goal, results and bug log.
 */
module Dashboard {
  import opened Optional
  import opened Text
  import opened Types
  import opened Seqs
  import opened Store

  /**
   * `(results[results.length - 1] || { totalScore: 0 }).totalScore`.  A result
   * record is always truthy, so the fallback applies only to an empty list.
   */
  function LatestScore(results: seq<TestResult>): (score: int)
    ensures |results| == 0 ==> score == 0
    ensures |results| > 0 ==> score == results[|results| - 1].totalScore
  {
    if |results| == 0 then 0 else results[|results| - 1].totalScore
  }

  /** With consistent results, the latest score is the last test's listening plus reading. */
  lemma LatestScoreIsSectionSum(results: seq<TestResult>)
    requires ScoresConsistent(results) && |results| > 0
    ensures LatestScore(results) ==
      results[|results| - 1].listeningScore + results[|results| - 1].readingScore
  {
    assert ScoreConsistent(results[|results| - 1]);
  }

  /** After addResult the latest score is the new result's listening plus reading. */
  lemma LatestScoreAfterAdd(results: seq<TestResult>, input: ResultInput, freshId: string)
    ensures LatestScore(results + [NewResult(input, freshId)]) ==
      input.listeningScore + input.readingScore
  {
    var r := NewResult(input, freshId);
    assert ScoreConsistent(r);
  }

  /** `goal - latestResult.totalScore`. */
  function ScoreGap(goal: int, results: seq<TestResult>): (gap: int)
    ensures gap + LatestScore(results) == goal
  {
    goal - LatestScore(results)
  }

  /** A bug the user has not yet marked as reviewed. */
  predicate IsPending(b: BugLog) {
    !b.reviewed
  }

  /** `bugs.filter(b => b.reviewed === false).length`. */
  function CriticalBugs(bugs: seq<BugLog>): (n: nat)
    ensures n <= |bugs|
  {
    |Filter(bugs, IsPending)|
  }

  /** The pending count is zero exactly when every bug has been reviewed. */
  lemma NoCriticalBugs(bugs: seq<BugLog>)
    ensures CriticalBugs(bugs) == 0 <==> forall i :: 0 <= i < |bugs| ==> bugs[i].reviewed
  {
    if forall i :: 0 <= i < |bugs| ==> bugs[i].reviewed {
      FilterNone(bugs, IsPending);
    } else {
      var i :| 0 <= i < |bugs| && !bugs[i].reviewed;
      FilterMembers(bugs, IsPending, bugs[i]);
    }
  }

  /** Pending and reviewed bugs together are the whole log. */
  lemma CriticalAndReviewed(bugs: seq<BugLog>)
    ensures CriticalBugs(bugs) + |Filter(bugs, Not(IsPending))| == |bugs|
  {
    FilterComplement(bugs, IsPending);
  }

  /** Logging a bug (addBug, which sets reviewed = false) raises the pending count by one. */
  lemma CriticalBugsAfterAdd(bugs: seq<BugLog>, input: BugInput, freshId: string)
    ensures CriticalBugs(bugs + [NewBug(input, freshId)]) == CriticalBugs(bugs) + 1
  {
    var s := bugs + [NewBug(input, freshId)];
    assert s[..|s| - 1] == bugs;
  }

  /** The caption under the latest score: the points still missing, or that the goal is met. */
  function GoalMessage(gap: int): (m: string)
    ensures m == "Goal Reached!" <==> gap <= 0
  {
    if gap > 0 then
      var m := NatToString(gap) + " points to go";
      assert IsDigit(m[0]) && !IsDigit("Goal Reached!"[0]);
      m
    else "Goal Reached!"
  }

  /** When the goal is not met, the caption starts with the gap itself, written in decimal. */
  lemma GoalMessageShowsGap(gap: int)
    requires gap > 0
    ensures ParseInt(GoalMessage(gap)) == Some(gap)
  {
    assert !IsDigit(" points to go"[0]);
    ParseIntOfIntToString(gap, " points to go");
  }
}
