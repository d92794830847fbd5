/**
 * The round game of `MiniMission.tsx`: toggling selections, scoring a
 * round, advancing, and the results the component hands back to the app.
 */
module MissionPlay {
  import opened Wrappers
  import opened JsText
  import opened Types

  datatype RoundStatus = Playing | Feedback

  // ---------------------------------------------------------------------------
  // Selections and scoring

  /** One click on a grid object: select it if unselected, unselect it otherwise. */
  function Toggle(selections: set<string>, id: string): (r: set<string>)
    ensures id in r <==> id !in selections
    ensures forall x :: x != id ==> (x in r <==> x in selections)
  {
    if id in selections then selections - {id} else selections + {id}
  }

  /** Two clicks on the same object leave the selection as it was. */
  lemma ToggleTwice(selections: set<string>, id: string)
    ensures Toggle(Toggle(selections, id), id) == selections
  {
  }

  /** `new Set(ids)`. */
  function SetOf(ids: seq<string>): set<string>
  {
    set i | 0 <= i < |ids| :: ids[i]
  }

  /** The test `handleSubmitRound` applies: same size, and every correct id selected. */
  predicate RoundSucceeded(correctIds: seq<string>, selections: set<string>)
  {
    |SetOf(correctIds)| == |selections| && forall id :: id in SetOf(correctIds) ==> id in selections
  }

  /** The size-and-inclusion test is exactly set equality, both ways. */
  lemma RoundSucceededIffSameSet(correctIds: seq<string>, selections: set<string>)
    ensures RoundSucceeded(correctIds, selections) <==> selections == SetOf(correctIds)
  {
    var c := SetOf(correctIds);
    if RoundSucceeded(correctIds, selections) {
      assert c <= selections;
      var extra := selections - c;
      assert selections == c + extra;
      assert |selections| == |c| + |extra|;
      assert extra == {};
    }
  }

  // ---------------------------------------------------------------------------
  // The final deduplication

  function Skills(rs: seq<RoundResult>): (s: seq<string>)
    ensures |s| == |rs|
    ensures forall i :: 0 <= i < |rs| ==> s[i] == rs[i].skill
  {
    seq(|rs|, i requires 0 <= i < |rs| => rs[i].skill)
  }

  /** The position of the first entry for `skill`, or `|entries|` when there is none. */
  function FindSkill(entries: seq<RoundResult>, skill: string): (i: nat)
    ensures i <= |entries|
    ensures i < |entries| ==> entries[i].skill == skill
    ensures forall j :: 0 <= j < i ==> entries[j].skill != skill
  {
    if entries == [] then 0
    else if entries[0].skill == skill then 0
    else 1 + FindSkill(entries[1..], skill)
  }

  /** `map.set(item.skill, item)`: an existing key keeps its place and takes the new value. */
  function MapSet(entries: seq<RoundResult>, item: RoundResult): (r: seq<RoundResult>)
    ensures |entries| <= |r| <= |entries| + 1
  {
    var i := FindSkill(entries, item.skill);
    if i < |entries| then entries[i := item] else entries + [item]
  }

  /** `Array.from(new Map(rs.map(item => [item.skill, item])).values())`. */
  function DedupBySkill(rs: seq<RoundResult>): (r: seq<RoundResult>)
    ensures |r| <= |rs|
    ensures rs != [] ==> |r| >= 1
  {
    if rs == [] then [] else MapSet(DedupBySkill(rs[..|rs| - 1]), rs[|rs| - 1])
  }

  /** The last result recorded for `skill`, if any. */
  function LatestFor(rs: seq<RoundResult>, skill: string): Option<RoundResult>
  {
    if rs == [] then None
    else if rs[|rs| - 1].skill == skill then Some(rs[|rs| - 1])
    else LatestFor(rs[..|rs| - 1], skill)
  }

  /**
   * The deduplication keeps one entry per skill, in order of first
   * appearance, and that entry is the last result recorded for the skill.
   */
  lemma {:induction false} DedupBySkillFacts(rs: seq<RoundResult>)
    ensures Skills(DedupBySkill(rs)) == Distinct(Skills(rs))
    ensures forall k :: 0 <= k < |DedupBySkill(rs)| ==>
      LatestFor(rs, DedupBySkill(rs)[k].skill) == Some(DedupBySkill(rs)[k])
  {
    if rs != [] {
      var p, x := rs[..|rs| - 1], rs[|rs| - 1];
      DedupBySkillFacts(p);
      var d := DedupBySkill(p);
      DistinctFacts(Skills(p));
      assert NoDup(Skills(d));
      var i := FindSkill(d, x.skill);
      var r := DedupBySkill(rs);
      assert Skills(rs) == Skills(p) + [x.skill];
      AddAllAppend([], Skills(p), [x.skill]);
      assert x.skill in Skills(d) <==> i < |d|;
      if i < |d| {
        assert Skills(r) == Skills(d);
      } else {
        assert Skills(r) == Skills(d) + [x.skill];
      }
      forall k | 0 <= k < |r|
        ensures LatestFor(rs, r[k].skill) == Some(r[k])
      {
        if r[k] != x {
          assert k < |d| && r[k] == d[k];
          assert d[k].skill != x.skill;
        }
      }
    }
  }

  /** When every skill occurs once, the deduplication changes nothing. */
  lemma {:induction false} DedupOfDistinctSkills(rs: seq<RoundResult>)
    requires NoDup(Skills(rs))
    ensures DedupBySkill(rs) == rs
  {
    if rs != [] {
      var p, x := rs[..|rs| - 1], rs[|rs| - 1];
      assert Skills(p) == Skills(rs)[..|rs| - 1];
      DedupOfDistinctSkills(p);
      assert x.skill !in Skills(p);
      assert FindSkill(p, x.skill) == |p|;
      assert p + [x] == rs;
    }
  }

  /**
   * What the completion timer reports: the recorded results plus the
   * current round's, deduplicated by skill; kept only when one entry per
   * round survives, otherwise the recorded results.
   */
  function FinalResults(roundResults: seq<RoundResult>, current: RoundResult, roundCount: int): seq<RoundResult>
  {
    var unique := DedupBySkill(roundResults + [current]);
    if |unique| == roundCount then unique else roundResults
  }

  /**
   * Once the last round has been scored, the recorded results already end
   * with the current round's result; the timer then reports exactly the
   * recorded results, whether or not two rounds share a skill.
   */
  lemma FinalResultsAreRecorded(roundResults: seq<RoundResult>, current: RoundResult)
    requires |roundResults| >= 1 && roundResults[|roundResults| - 1] == current
    ensures FinalResults(roundResults, current, |roundResults|) == roundResults
  {
    var rr := roundResults;
    var f := rr + [current];
    assert f[..|f| - 1] == rr;
    var unique := DedupBySkill(f);
    if NoDup(Skills(rr)) {
      DedupOfDistinctSkills(rr);
      var i := FindSkill(rr, current.skill);
      assert rr[|rr| - 1].skill == current.skill;
      assert i == |rr| - 1;
      assert unique == rr[i := current] == rr;
    } else {
      DedupBySkillFacts(f);
      assert Skills(f) == Skills(rr) + [current.skill];
      AddAllAppend([], Skills(rr), [current.skill]);
      DistinctFacts(Skills(rr));
      assert Skills(rr)[|rr| - 1] == current.skill;
      assert current.skill in Distinct(Skills(rr));
      DistinctShorter(Skills(rr));
      assert |unique| == |Skills(unique)| == |Distinct(Skills(rr))| < |rr|;
    }
  }

  // ---------------------------------------------------------------------------
  // The component

  class MissionGame {
    const rounds: seq<GameRound>
    var currentRoundIndex: nat
    var selections: set<string>
    var roundResults: seq<RoundResult>
    var roundStatus: RoundStatus
    var isCorrect: bool
    /**
     * Whether the results have been handed to the app; the app then leaves
     * the mission screen and the component is gone.
     */
    ghost var handedOff: bool

    /**
     * The round index stays in range; one result is recorded per round
     * scored, for that round's skill; while feedback shows, the last
     * recorded result is the current round's.
     */
    ghost predicate Valid()
      reads this
    {
      && 1 <= |rounds|
      && currentRoundIndex < |rounds|
      && |roundResults| == currentRoundIndex + (if roundStatus == Feedback || handedOff then 1 else 0)
      && (handedOff ==> currentRoundIndex == |rounds| - 1)
      && (forall i :: 0 <= i < |roundResults| ==> roundResults[i].skill == rounds[i].skillToTest)
      && (roundStatus == Feedback ==>
            roundResults[currentRoundIndex] == RoundResult(rounds[currentRoundIndex].skillToTest, isCorrect))
    }

    /** The hooks' initial values; `mission.rounds[0]` must exist for the first render. */
    constructor(missionRounds: seq<GameRound>)
      requires |missionRounds| >= 1
      ensures Valid() && !handedOff
      ensures rounds == missionRounds
      ensures currentRoundIndex == 0 && selections == {} && roundResults == []
      ensures roundStatus == Playing && !isCorrect
    {
      rounds := missionRounds;
      currentRoundIndex := 0;
      selections := {};
      roundResults := [];
      roundStatus := Playing;
      isCorrect := false;
      handedOff := false;
    }

    /** `handleObjectClick`: ignored unless a round is being played. */
    method ObjectClick(objectId: string)
      requires Valid() && !handedOff
      modifies this
      ensures Valid() && !handedOff
      ensures selections == if old(roundStatus) == Playing then Toggle(old(selections), objectId) else old(selections)
      ensures currentRoundIndex == old(currentRoundIndex) && roundResults == old(roundResults)
      ensures roundStatus == old(roundStatus) && isCorrect == old(isCorrect)
    {
      if roundStatus != Playing {
        return;
      }
      if objectId in selections {
        selections := selections - {objectId};
      } else {
        selections := selections + {objectId};
      }
    }

    /**
     * `handleSubmitRound`, offered only while a round is being played:
     * scores the selection, records one result for the round's skill and
     * shows the feedback.
     */
    method SubmitRound()
      requires Valid() && !handedOff && roundStatus == Playing
      modifies this
      ensures Valid() && !handedOff
      ensures isCorrect == (selections == SetOf(rounds[currentRoundIndex].correctObjectIds))
      ensures roundResults == old(roundResults) + [RoundResult(rounds[currentRoundIndex].skillToTest, isCorrect)]
      ensures roundStatus == Feedback
      ensures currentRoundIndex == old(currentRoundIndex) && selections == old(selections)
    {
      var round := rounds[currentRoundIndex];
      var correctSelections := SetOf(round.correctObjectIds);
      var success := |correctSelections| == |selections| && forall id :: id in correctSelections ==> id in selections;
      RoundSucceededIffSameSet(round.correctObjectIds, selections);
      isCorrect := success;
      roundResults := roundResults + [RoundResult(round.skillToTest, success)];
      roundStatus := Feedback;
    }

    /**
     * `handleNext`, offered only while feedback shows: clears the
     * selection and either moves to the next round or, after the last
     * round, hands every recorded result to the app.
     */
    method Next() returns (completed: Option<seq<RoundResult>>)
      requires Valid() && !handedOff && roundStatus == Feedback
      modifies this
      ensures Valid()
      ensures selections == {} && roundStatus == Playing
      ensures roundResults == old(roundResults) && isCorrect == old(isCorrect)
      ensures old(currentRoundIndex) < |rounds| - 1 ==>
        currentRoundIndex == old(currentRoundIndex) + 1 && completed.None? && !handedOff
      ensures old(currentRoundIndex) == |rounds| - 1 ==>
        && currentRoundIndex == old(currentRoundIndex) && handedOff
        && completed == Some(roundResults) && |roundResults| == |rounds|
    {
      selections := {};
      roundStatus := Playing;
      if currentRoundIndex < |rounds| - 1 {
        currentRoundIndex := currentRoundIndex + 1;
        completed := None;
      } else {
        completed := Some(roundResults);
        handedOff := true;
      }
    }

    /**
     * The completion timer, set while the last round's feedback shows:
     * reports `FinalResults`, which is every recorded result, one per round.
     */
    method FinishTimeout() returns (completed: seq<RoundResult>)
      requires Valid() && !handedOff && roundStatus == Feedback && currentRoundIndex == |rounds| - 1
      modifies this
      ensures Valid() && handedOff
      ensures completed == FinalResults(old(roundResults),
                                        RoundResult(rounds[currentRoundIndex].skillToTest, isCorrect), |rounds|)
      ensures completed == roundResults && |completed| == |rounds|
      ensures selections == old(selections) && roundStatus == old(roundStatus)
      ensures currentRoundIndex == old(currentRoundIndex) && isCorrect == old(isCorrect)
    {
      var finalResults := roundResults + [RoundResult(rounds[currentRoundIndex].skillToTest, isCorrect)];
      var uniqueResults := DedupBySkill(finalResults);
      completed := if |uniqueResults| == |rounds| then uniqueResults else roundResults;
      FinalResultsAreRecorded(roundResults, RoundResult(rounds[currentRoundIndex].skillToTest, isCorrect));
      handedOff := true;
    }
  }
}
