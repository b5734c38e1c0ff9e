/**
 * The per-tab session state. Every `sessionStorage` key and `window` global the
 * flow reads or writes is one field of an immutable record.
 */
module Session {
  import opened Base

  /** One entry of the `longFormCampaigns` list. */
  datatype PendingEntry = PendingEntry(cid: string, sid: string)

  /** An answer as the handlers see it: the value and the routing read from the control. */
  datatype AnswerValue = AnswerValue(answer: string, cid: string, sid: string)

  datatype SessionState = SessionState(
    /** Plain string keys: profile fields, tracking ids, "dob", "user_ip". */
    store: map<string, string>,
    /** The "requiresLongForm" key equals "true" (the only comparison ever made on it). */
    requiresLongForm: bool,
    /** "longFormCampaigns"; an absent key reads as the empty list. */
    longFormCampaigns: seq<PendingEntry>,
    /** "coreg_answers_<cid>": the accumulated answers per cid. */
    answerLists: map<string, seq<string>>,
    /** "f_2014_coreg_answer_<cid>": the answer string sent per cid. */
    coregAnswers: map<string, string>,
    /** "f_2575_coreg_answer_dropdown_<cid>": the last dropdown choice per cid. */
    dropdownAnswers: map<string, string>,
    /** The "shortFormCompleted" key equals "true"; read by the answer handlers. */
    shortFormCompletedKey: bool,
    /** `window.pendingShortCoreg`, mirrored into the key of the same name. */
    pendingShortCoreg: seq<AnswerValue>,
    /** `window.submittedCampaigns`: the `cid_sid` keys of completed lead requests. */
    submitted: set<string>,
    /** `window.shortFormCompleted`; set by the short-form submit. */
    shortFormCompleted: bool
  )

  /** `sessionStorage.getItem(key) || ""`. */
  function Get(s: SessionState, key: string): string {
    Lookup(s.store, key, "")
  }

  /** `sessionStorage.setItem(key, value)` for a plain string key. */
  function Put(s: SessionState, key: string, value: string): (r: SessionState)
    ensures Get(r, key) == value
    ensures forall k :: k != key ==> Get(r, k) == Get(s, k)
    ensures r.(store := s.store) == s
  {
    s.(store := s.store[key := value])
  }

  /** The accumulated answers for `cid`; an absent key reads as the empty list. */
  function AnswerList(s: SessionState, cid: string): seq<string> {
    Lookup(s.answerLists, cid, [])
  }

  predicate HasPendingCid(pending: seq<PendingEntry>, cid: string) {
    exists k :: 0 <= k < |pending| && pending[k].cid == cid
  }

  /** No cid occurs twice in the long-form list. */
  predicate UniqueByCid(pending: seq<PendingEntry>) {
    forall i, j :: 0 <= i < j < |pending| ==> pending[i].cid != pending[j].cid
  }

  /** Append `e` to the long-form list unless an entry with its cid is already there. */
  function AddPending(pending: seq<PendingEntry>, e: PendingEntry): (r: seq<PendingEntry>)
    ensures HasPendingCid(r, e.cid)
    ensures UniqueByCid(pending) ==> UniqueByCid(r)
    ensures pending <= r && |r| <= |pending| + 1
    ensures forall c :: HasPendingCid(r, c) <==> HasPendingCid(pending, c) || c == e.cid
  {
    if HasPendingCid(pending, e.cid) then pending
    else
      assert (pending + [e])[|pending|].cid == e.cid;
      pending + [e]
  }

  /** The state at the start of the coreg flow: long-form flag "false", list removed. */
  function StartFlow(s: SessionState): (r: SessionState)
    ensures !r.requiresLongForm && r.longFormCampaigns == []
    ensures r.(requiresLongForm := s.requiresLongForm, longFormCampaigns := s.longFormCampaigns) == s
  {
    s.(requiresLongForm := false, longFormCampaigns := [])
  }

  /** What the answer handlers never take away: every list only grows. */
  predicate Grows(s: SessionState, r: SessionState) {
    && s.submitted <= r.submitted
    && s.pendingShortCoreg <= r.pendingShortCoreg
    && s.longFormCampaigns <= r.longFormCampaigns
    && (forall cid :: cid in s.answerLists ==> cid in r.answerLists && s.answerLists[cid] <= r.answerLists[cid])
  }

  lemma GrowsTransitive(s1: SessionState, s2: SessionState, s3: SessionState)
    requires Grows(s1, s2) && Grows(s2, s3)
    ensures Grows(s1, s3)
  {
  }
}
