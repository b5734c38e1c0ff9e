/**
 * `fetchLead` of the form script: at most one completed lead request per
 * `cid_sid` key and session.
 */
module Leads {
  import opened Base
  import opened Payloads

  /** The four answers of `fetchLead`. */
  datatype LeadResult =
    | MissingIds      // { success: false, error: "Missing cid/sid" }, no request
    | Skipped         // { skipped: true }, no request
    | Completed       // the request completed (any HTTP status): { success: true, ... }
    | TransportError  // the request failed: { success: false, error }

  /** `!payload.cid || !payload.sid` is false. */
  predicate HasIds(p: Payload) {
    p.cid.Some? && p.cid.value != "" && p.sid.Some? && p.sid.value != ""
  }

  /** `${payload.cid}_${payload.sid}`. */
  function DedupKey(p: Payload): string {
    p.cid.GetOr("") + "_" + p.sid.GetOr("")
  }

  /** Whether `fetchLead` issued a network request. */
  predicate Requested(r: LeadResult) {
    r == Completed || r == TransportError
  }

  /** One attempted lead: the payload and what `fetchLead` answered. */
  datatype Dispatch = Dispatch(payload: Payload, result: LeadResult)

  /** The result and the submitted set after the call. */
  datatype LeadOutcome = LeadOutcome(result: LeadResult, submitted: set<string>)

  function FetchLead(submitted: set<string>, p: Payload, completes: string -> bool): (o: LeadOutcome)
    ensures o.result == MissingIds <==> !HasIds(p)
    ensures o.result == Skipped <==> HasIds(p) && DedupKey(p) in submitted
    ensures o.result == Completed <==> HasIds(p) && DedupKey(p) !in submitted && completes(DedupKey(p))
    ensures o.result == Completed ==> o.submitted == submitted + {DedupKey(p)}
    ensures o.result != Completed ==> o.submitted == submitted
    ensures AtMostOnce(submitted, o.submitted, [Dispatch(p, o.result)])
  {
    if !HasIds(p) then LeadOutcome(MissingIds, submitted)
    else
      var key := DedupKey(p);
      if key in submitted then LeadOutcome(Skipped, submitted)
      else if completes(key) then LeadOutcome(Completed, submitted + {key})
      else LeadOutcome(TransportError, submitted)
  }

  /** A second call with the same payload after a completed one never sends again. */
  lemma NoResendAfterCompletion(submitted: set<string>, p: Payload, c1: string -> bool, c2: string -> bool)
    requires FetchLead(submitted, p, c1).result == Completed
    ensures FetchLead(FetchLead(submitted, p, c1).submitted, p, c2).result == Skipped
  {
  }

  /** The completed attempts of a log: every key fresh before and recorded after. */
  predicate CompletedFresh(before: set<string>, after: set<string>, log: seq<Dispatch>) {
    forall i :: 0 <= i < |log| && log[i].result == Completed ==>
      DedupKey(log[i].payload) !in before && DedupKey(log[i].payload) in after
  }

  /** No two completed attempts of a log share a key. */
  predicate CompletedDistinct(log: seq<Dispatch>) {
    forall i, j :: 0 <= i < j < |log| && log[i].result == Completed && log[j].result == Completed ==>
      DedupKey(log[i].payload) != DedupKey(log[j].payload)
  }

  /**
   * The at-most-once-on-success guarantee over a stretch of the session that
   * took the submitted set from `before` to `after` and attempted `log`.
   */
  predicate AtMostOnce(before: set<string>, after: set<string>, log: seq<Dispatch>) {
    before <= after && CompletedFresh(before, after, log) && CompletedDistinct(log)
  }

  /** Two stretches run one after the other keep the guarantee. */
  lemma AtMostOnceCompose(s1: set<string>, s2: set<string>, s3: set<string>, l1: seq<Dispatch>, l2: seq<Dispatch>)
    requires AtMostOnce(s1, s2, l1) && AtMostOnce(s2, s3, l2)
    ensures AtMostOnce(s1, s3, l1 + l2)
  {
    var log := l1 + l2;
    forall i, j | 0 <= i < j < |log| && log[i].result == Completed && log[j].result == Completed
      ensures DedupKey(log[i].payload) != DedupKey(log[j].payload)
    {
      if i < |l1| && j >= |l1| {
        assert log[j] == l2[j - |l1|];
        assert DedupKey(log[i].payload) in s2;
      } else if i >= |l1| {
        assert log[i] == l2[i - |l1|] && log[j] == l2[j - |l1|];
      }
    }
    forall i | 0 <= i < |log| && log[i].result == Completed
      ensures DedupKey(log[i].payload) !in s1 && DedupKey(log[i].payload) in s3
    {
      if i >= |l1| {
        assert log[i] == l2[i - |l1|];
      }
    }
  }

  /** Nothing attempted keeps the guarantee trivially. */
  lemma AtMostOnceEmpty(s: set<string>)
    ensures AtMostOnce(s, s, [])
  {
  }
}
