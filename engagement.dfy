/**
 * The engagement classifier of src/features/engagement.py: a survey score is
 * mapped to one of three engagement levels, and the mapping is applied to the
 * whole score column of the survey frame.
 */
module Engagement {
  import opened Wrappers

  /** The per-employee feature record that the risk rule reads and the in-memory graph stores. */
  datatype Features = Features(engagement: string)

  /**
   * One row of the survey frame. `engagement` is None while the frame has no
   * engagement column yet; the other columns of the frame are not modelled.
   */
  datatype SurveyRow = SurveyRow(employeeId: int, score: real, engagement: Option<string>)

  predicate IsLevel(s: string) {
    s == "low" || s == "medium" || s == "high"
  }

  /**
   * Classifies a score. No score is rejected: every score at most 2 is "low",
   * exactly 3 is "medium", and every other score, including those strictly
   * between 2 and 3, is "high".
   */
  function EngagementLevel(score: real): (level: string)
    ensures IsLevel(level)
    ensures level == "low" <==> score <= 2.0
    ensures level == "medium" <==> score == 3.0
    ensures level == "high" <==> score > 2.0 && score != 3.0
  {
    if score <= 2.0 then "low"
    else if score == 3.0 then "medium"
    else "high"
  }

  /** A score strictly between 2 and 3 is classified "high", not "low" or "medium". */
  lemma ScoreBetweenTwoAndThreeIsHigh(score: real)
    requires 2.0 < score < 3.0
    ensures EngagementLevel(score) == "high"
  {
  }

  /** The survey frame, which `ComputeEngagement` updates in place. */
  class SurveyFrame {
    var rows: seq<SurveyRow>

    constructor (rows: seq<SurveyRow>)
      ensures this.rows == rows
    {
      this.rows := rows;
    }
  }

  /** True when every row carries an engagement value. */
  predicate EngagementComputed(rows: seq<SurveyRow>) {
    forall i :: 0 <= i < |rows| ==> rows[i].engagement.Some?
  }

  /**
   * The frame after the engagement column has been assigned: same rows, same
   * ids and scores, and the engagement of each row is the level of its score,
   * whatever it was before.
   */
  function WithEngagementColumn(rows: seq<SurveyRow>): (r: seq<SurveyRow>)
    ensures |r| == |rows|
    ensures forall i :: 0 <= i < |rows| ==>
      r[i].employeeId == rows[i].employeeId && r[i].score == rows[i].score &&
      r[i].engagement == Some(EngagementLevel(rows[i].score))
    ensures EngagementComputed(r)
  {
    seq(|rows|, i requires 0 <= i < |rows| => rows[i].(engagement := Some(EngagementLevel(rows[i].score))))
  }

  /** Assigning the column a second time changes nothing: it overwrites, it does not accumulate. */
  lemma EngagementColumnIdempotent(rows: seq<SurveyRow>)
    ensures WithEngagementColumn(WithEngagementColumn(rows)) == WithEngagementColumn(rows)
  {
  }

  /** Adds (or overwrites) the engagement column of `df` and returns the same frame. */
  method ComputeEngagement(df: SurveyFrame) returns (r: SurveyFrame)
    modifies df
    ensures r == df
    ensures df.rows == WithEngagementColumn(old(df.rows))
  {
    df.rows := WithEngagementColumn(df.rows);
    r := df;
  }
}
