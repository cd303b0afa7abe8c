/** Whom a search hands to the campaign. */
module Acquisition {
  import opened MergeRecords
  import opened Dedupe
  import Campaign
  import KeyedFold

  /** What the merge and the filter leave of a search is a search the campaign's theorems allow,
      as long as the seen keys hold everybody the campaign has a row for. */
  lemma SearchIsLegal(s: Campaign.State, r: Rules, seen: set<string>, collected: seq<Candidate>)
    requires s.process.Up? && s.process.task.Running? && forall k :: k in s.rows ==> k in seen
    requires KeyedFold.All(collected, OwnPagesUnique)
    ensures Campaign.Enabled(s, Campaign.Search(Identities(Filtered(r, seen, Merged(collected)).kept)))
  {
    MergedBatchKeepsOnce(r, seen, collected);
    var kept := Filtered(r, seen, Merged(collected)).kept;
    forall k | k in Identities(kept) ensures k !in s.rows {
      var i :| 0 <= i < |kept| && Identities(kept)[i] == k;
      assert kept[i].identity !in seen;
    }
  }
}
