/**
 * The form script around the coreg flow: the short-form submit, the flush of
 * stored coreg answers once the short form is done, and the long-form submit
 * that sends the queued long-form campaigns.
 */
module Forms {
  import opened Base
  import opened Text
  import opened Session
  import opened Dob
  import opened Payloads
  import opened Leads

  predicate Distinct(xs: seq<string>) {
    forall i, j :: 0 <= i < j < |xs| ==> xs[i] != xs[j]
  }

  /** A session and the leads attempted on the way to it. */
  datatype Flushed = Flushed(session: SessionState, log: seq<Dispatch>)

  /** Sending a lead touches only the store ("user_ip"), the submitted set and the answer keys. */
  predicate LeadFrame(s: SessionState, r: SessionState) {
    && r.requiresLongForm == s.requiresLongForm && r.longFormCampaigns == s.longFormCampaigns
    && r.answerLists == s.answerLists && r.dropdownAnswers == s.dropdownAnswers
    && r.shortFormCompletedKey == s.shortFormCompletedKey && r.pendingShortCoreg == s.pendingShortCoreg
    && r.shortFormCompleted == s.shortFormCompleted
  }

  /** The store differs at most in "user_ip". */
  predicate IpOnly(s: SessionState, r: SessionState) {
    r.store == s.store || r.store == s.store["user_ip" := Get(r, "user_ip")]
  }

  lemma IpOnlyTrans(s: SessionState, a: SessionState, b: SessionState)
    requires IpOnly(s, a) && IpOnly(a, b)
    ensures IpOnly(s, b)
  {
    if b.store != a.store && a.store != s.store {
      assert b.store == s.store["user_ip" := Get(b, "user_ip")];
    }
  }

  /** Neither form has an input named "user_ip". */
  lemma FormFieldsAreNotIp()
    ensures "user_ip" !in LongFormFields && "user_ip" !in ShortFormFields
  {
  }

  /** Fields other than "user_ip" read the same after an ip-only change. */
  lemma IpOnlyKeeps(s: SessionState, r: SessionState, fields: seq<string>)
    requires IpOnly(s, r) && "user_ip" !in fields
    ensures forall k :: 0 <= k < |fields| ==> Get(r, fields[k]) == Get(s, fields[k])
  {
    assert forall k :: 0 <= k < |fields| ==> fields[k] in fields;
  }

  /** One lead: build the payload, then `fetchLead` it. */
  datatype Sent = Sent(session: SessionState, dispatch: Dispatch)

  function SendOne(s: SessionState, req: PayloadRequest, env: Env): (r: Sent)
    ensures r.dispatch.payload.cid == OrNull(req.cid) && r.dispatch.payload.sid == OrNull(req.sid)
    ensures r.dispatch.payload.coregAnswer == OrNull(req.coregAnswer)
    ensures r.dispatch.payload.dropdownAnswer == OrNull(req.dropdownAnswer)
    ensures r.dispatch.payload.isShortform == req.isShortform
    ensures r.dispatch.payload.dob == ParseDob(Get(s, "dob"))
    ensures r.dispatch.result == Skipped <==> HasIds(r.dispatch.payload) && DedupKey(r.dispatch.payload) in s.submitted
    ensures AtMostOnce(s.submitted, r.session.submitted, [r.dispatch])
    ensures LeadFrame(s, r.session) && r.session.coregAnswers == s.coregAnswers
    ensures IpOnly(s, r.session)
  {
    var b := BuildPayload(s, req, env);
    var o := FetchLead(b.session.submitted, b.payload, env.completes);
    Sent(b.session.(submitted := o.submitted), Dispatch(b.payload, o.result))
  }

  // ---------------------------------------------------------------------------
  // Flushing stored coreg answers
  // ---------------------------------------------------------------------------

  /** The cids a flush sends, in key order: those without a long-form entry. */
  function FlushTargets(cids: seq<string>, pending: seq<PendingEntry>): (r: seq<string>)
    ensures forall c :: c in r <==> c in cids && !HasPendingCid(pending, c)
    ensures |r| <= |cids|
    ensures Distinct(cids) ==> Distinct(r)
  {
    if |cids| == 0 then []
    else (if HasPendingCid(pending, cids[0]) then [] else [cids[0]]) + FlushTargets(cids[1..], pending)
  }

  /** Flush targets are taken key by key, so the order of the keys is kept. */
  lemma {:induction false} FlushTargetsAppend(a: seq<string>, b: seq<string>, pending: seq<PendingEntry>)
    ensures FlushTargets(a + b, pending) == FlushTargets(a, pending) + FlushTargets(b, pending)
    decreases |a|
  {
    if |a| != 0 {
      assert (a + b)[1..] == a[1..] + b;
      FlushTargetsAppend(a[1..], b, pending);
      var h := if HasPendingCid(pending, a[0]) then [] else [a[0]];
      calc {
        FlushTargets(a + b, pending);
        h + FlushTargets(a[1..] + b, pending);
        h + (FlushTargets(a[1..], pending) + FlushTargets(b, pending));
        (h + FlushTargets(a[1..], pending)) + FlushTargets(b, pending);
      }
    } else {
      assert a + b == b;
    }
  }

  /** The flush payload request: sid is always "34". */
  function FlushRequest(s: SessionState, cid: string): PayloadRequest {
    PayloadRequest(cid, "34", Lookup(s.coregAnswers, cid, ""), "", false)
  }

  /** Every kept answer key existed before with the same value. */
  predicate AnswersShrink(before: map<string, string>, after: map<string, string>) {
    forall c :: c in after ==> c in before && after[c] == before[c]
  }

  /** One step of a flush: send `cid` with sid "34", then maybe remove its key. */
  function FlushOne(s: SessionState, cid: string, env: Env, removeSent: bool): (r: Sent)
    ensures r.dispatch.payload.cid == OrNull(cid) && r.dispatch.payload.sid == Some("34")
    ensures r.dispatch.payload.coregAnswer == OrNull(Lookup(s.coregAnswers, cid, ""))
    ensures !r.dispatch.payload.isShortform
    ensures AtMostOnce(s.submitted, r.session.submitted, [r.dispatch])
    ensures r.session.coregAnswers ==
      if removeSent && r.dispatch.result != Skipped then s.coregAnswers - {cid} else s.coregAnswers
    ensures FlushEffect(s, r.session, removeSent)
  {
    var one := SendOne(s, FlushRequest(s, cid), env);
    if removeSent && one.dispatch.result != Skipped then
      Sent(one.session.(coregAnswers := s.coregAnswers - {cid}), one.dispatch)
    else one
  }

  /**
   * The flush loop over the answer keys (given as cids): skip the ones queued
   * for the long form, build and send the others with sid "34", and, when
   * `removeSent`, remove a key unless `fetchLead` answered "skipped". The
   * keys are distinct, and the lead of key `c` meets the world `envs(c)`.
   */
  function FlushKeys(s: SessionState, cids: seq<string>, pending: seq<PendingEntry>, envs: string -> Env, removeSent: bool): (r: Flushed)
    requires Distinct(cids)
    ensures |r.log| == |FlushTargets(cids, pending)|
    ensures AtMostOnce(s.submitted, r.session.submitted, r.log)
    decreases |cids|
  {
    if |cids| == 0 then
      AtMostOnceEmpty(s.submitted);
      Flushed(s, [])
    else
      var cid := cids[0];
      DistinctTail(cids);
      if HasPendingCid(pending, cid) then FlushKeys(s, cids[1..], pending, envs, removeSent)
      else
        var one := FlushOne(s, cid, envs(cid), removeSent);
        var rest := FlushKeys(one.session, cids[1..], pending, envs, removeSent);
        var log := [one.dispatch] + rest.log;
        AtMostOnceCompose(s.submitted, one.session.submitted, rest.session.submitted, [one.dispatch], rest.log);
        Flushed(rest.session, log)
  }

  /** A distinct sequence's tail is distinct and lacks its head. */
  lemma DistinctTail(cids: seq<string>)
    requires Distinct(cids) && |cids| > 0
    ensures Distinct(cids[1..]) && cids[0] !in cids[1..]
  {
  }

  /**
   * What a flush may do to the session besides the store and the submitted
   * set: remove answer keys, and only when `removeSent`.
   */
  predicate FlushEffect(before: SessionState, after: SessionState, removeSent: bool) {
    && (!removeSent ==> after.coregAnswers == before.coregAnswers)
    && AnswersShrink(before.coregAnswers, after.coregAnswers)
    && LeadFrame(before, after)
  }

  lemma FlushEffectTrans(a: SessionState, b: SessionState, c: SessionState, removeSent: bool)
    requires FlushEffect(a, b, removeSent) && FlushEffect(b, c, removeSent)
    ensures FlushEffect(a, c, removeSent)
  {
  }

  /**
   * A flush only ever removes answer keys, and only when `removeSent`; the
   * long-form queue, the lists, the dropdown answers and the short-form flags
   * stay as they were.
   */
  lemma {:induction false} FlushKeysAnswers(s: SessionState, cids: seq<string>, pending: seq<PendingEntry>, envs: string -> Env, removeSent: bool)
    requires Distinct(cids)
    ensures FlushEffect(s, FlushKeys(s, cids, pending, envs, removeSent).session, removeSent)
    decreases |cids|
  {
    if |cids| > 0 {
      if HasPendingCid(pending, cids[0]) {
        FlushKeysSkip(s, cids, pending, envs, removeSent);
        FlushKeysAnswers(s, cids[1..], pending, envs, removeSent);
      } else {
        FlushKeysSend(s, cids, pending, envs, removeSent);
        var one := FlushOne(s, cids[0], envs(cids[0]), removeSent);
        FlushKeysAnswers(one.session, cids[1..], pending, envs, removeSent);
        FlushEffectTrans(s, one.session, FlushKeys(one.session, cids[1..], pending, envs, removeSent).session, removeSent);
      }
    }
  }

  /** A flush that starts with a long-form cid is the flush of the remaining keys. */
  lemma FlushKeysSkip(s: SessionState, cids: seq<string>, pending: seq<PendingEntry>, envs: string -> Env, removeSent: bool)
    requires Distinct(cids) && |cids| > 0 && HasPendingCid(pending, cids[0])
    ensures Distinct(cids[1..])
    ensures FlushKeys(s, cids, pending, envs, removeSent) == FlushKeys(s, cids[1..], pending, envs, removeSent)
    ensures FlushTargets(cids, pending) == FlushTargets(cids[1..], pending)
  {
    DistinctTail(cids);
  }

  /** A flush that starts with a sendable cid sends it first, then flushes the rest. */
  lemma FlushKeysSend(s: SessionState, cids: seq<string>, pending: seq<PendingEntry>, envs: string -> Env, removeSent: bool)
    requires Distinct(cids) && |cids| > 0 && !HasPendingCid(pending, cids[0])
    ensures Distinct(cids[1..])
    ensures var one := FlushOne(s, cids[0], envs(cids[0]), removeSent);
      var rest := FlushKeys(one.session, cids[1..], pending, envs, removeSent);
      FlushKeys(s, cids, pending, envs, removeSent) == Flushed(rest.session, [one.dispatch] + rest.log)
    ensures FlushTargets(cids, pending) == [cids[0]] + FlushTargets(cids[1..], pending)
    ensures cids[0] !in FlushTargets(cids[1..], pending)
  {
    DistinctTail(cids);
  }

  /** A flush lead for `target`: its cid, sid "34", the stored answer, no short-form flag. */
  predicate SentAsTarget(answers: map<string, string>, target: string, d: Dispatch) {
    && d.payload.cid == OrNull(target) && d.payload.sid == Some("34")
    && d.payload.coregAnswer == OrNull(Lookup(answers, target, ""))
    && !d.payload.isShortform
  }

  /** Entry k of `log` is the lead for `targets[k]`. */
  predicate SentAsTargets(answers: map<string, string>, targets: seq<string>, log: seq<Dispatch>) {
    |log| == |targets| && forall k :: 0 <= k < |log| ==> SentAsTarget(answers, targets[k], log[k])
  }

  /**
   * Entry k of a flush is the k-th target: its cid, sid "34", the answer stored
   * for it before the flush, and no short-form flag.
   */
  lemma {:induction false} FlushKeysPayloads(s: SessionState, cids: seq<string>, pending: seq<PendingEntry>, envs: string -> Env, removeSent: bool)
    requires Distinct(cids)
    ensures SentAsTargets(s.coregAnswers, FlushTargets(cids, pending), FlushKeys(s, cids, pending, envs, removeSent).log)
    decreases |cids|
  {
    if |cids| > 0 {
      if HasPendingCid(pending, cids[0]) {
        FlushKeysSkip(s, cids, pending, envs, removeSent);
        FlushKeysPayloads(s, cids[1..], pending, envs, removeSent);
      } else {
        FlushKeysSend(s, cids, pending, envs, removeSent);
        var one := FlushOne(s, cids[0], envs(cids[0]), removeSent);
        FlushKeysPayloads(one.session, cids[1..], pending, envs, removeSent);
        var rest := FlushKeys(one.session, cids[1..], pending, envs, removeSent);
        SentAsTargetsCons(s.coregAnswers, one.session.coregAnswers, cids[0], FlushTargets(cids[1..], pending), one.dispatch, rest.log);
      }
    }
  }

  /** Prepending the lead for `cid` to a flush of other cids whose answers did not change. */
  lemma SentAsTargetsCons(answers: map<string, string>, answers': map<string, string>, cid: string,
                          later: seq<string>, d: Dispatch, log: seq<Dispatch>)
    requires SentAsTarget(answers, cid, d)
    requires SentAsTargets(answers', later, log)
    requires forall c :: c in later ==> Lookup(answers', c, "") == Lookup(answers, c, "")
    ensures SentAsTargets(answers, [cid] + later, [d] + log)
  {
    var targets, all := [cid] + later, [d] + log;
    forall k | 0 <= k < |all|
      ensures SentAsTarget(answers, targets[k], all[k])
    {
      if k > 0 {
        assert all[k] == log[k - 1] && targets[k] == later[k - 1];
        assert later[k - 1] in later;
      }
    }
  }

  /** Every target with a non-empty cid has a lead of its own. */
  lemma SentAsTargetsCovers(answers: map<string, string>, targets: seq<string>, log: seq<Dispatch>)
    requires SentAsTargets(answers, targets, log)
    ensures forall c :: c in targets && c != "" ==> exists k :: 0 <= k < |log| && log[k].payload.cid == Some(c)
  {
    forall c | c in targets && c != ""
      ensures exists k :: 0 <= k < |log| && log[k].payload.cid == Some(c)
    {
      var k :| 0 <= k < |targets| && targets[k] == c;
      assert SentAsTarget(answers, targets[k], log[k]);
    }
  }

  /** A flushed key stays stored exactly when it was stored and its lead was skipped. */
  predicate KeptIffSkipped(before: map<string, string>, after: map<string, string>, target: string, d: Dispatch) {
    target in after <==> target in before && d.result == Skipped
  }

  /** Entry k of `log` was kept exactly when it was stored and skipped. */
  predicate KeptIffSkippedAll(before: map<string, string>, after: map<string, string>, targets: seq<string>, log: seq<Dispatch>) {
    |log| == |targets| && forall k :: 0 <= k < |log| ==> KeptIffSkipped(before, after, targets[k], log[k])
  }

  /** Keys that are not targets keep their presence. */
  ghost predicate UntouchedBesides(before: map<string, string>, after: map<string, string>, targets: seq<string>) {
    forall c :: c !in targets ==> (c in after <==> c in before)
  }

  /** Prepending the lead for `cid` to a flush of other cids whose presence did not change. */
  lemma KeptIffSkippedCons(before: map<string, string>, mid: map<string, string>, after: map<string, string>,
                           cid: string, later: seq<string>, d: Dispatch, log: seq<Dispatch>)
    requires KeptIffSkipped(before, after, cid, d)
    requires KeptIffSkippedAll(mid, after, later, log)
    requires forall c :: c in later ==> (c in mid <==> c in before)
    ensures KeptIffSkippedAll(before, after, [cid] + later, [d] + log)
  {
    var targets, all := [cid] + later, [d] + log;
    forall k | 0 <= k < |all|
      ensures KeptIffSkipped(before, after, targets[k], all[k])
    {
      if k > 0 {
        assert all[k] == log[k - 1] && targets[k] == later[k - 1];
        assert later[k - 1] in later;
      }
    }
  }

  /**
   * With `removeSent`, a target's key survives the flush exactly when it was
   * stored and its lead was "skipped"; keys that are not targets are untouched.
   */
  lemma {:induction false} FlushKeysRemoval(s: SessionState, cids: seq<string>, pending: seq<PendingEntry>, envs: string -> Env)
    requires Distinct(cids)
    ensures var r := FlushKeys(s, cids, pending, envs, true);
      var targets := FlushTargets(cids, pending);
      && KeptIffSkippedAll(s.coregAnswers, r.session.coregAnswers, targets, r.log)
      && UntouchedBesides(s.coregAnswers, r.session.coregAnswers, targets)
    decreases |cids|
  {
    if |cids| > 0 {
      if HasPendingCid(pending, cids[0]) {
        FlushKeysSkip(s, cids, pending, envs, true);
        FlushKeysRemoval(s, cids[1..], pending, envs);
      } else {
        FlushKeysSend(s, cids, pending, envs, true);
        var one := FlushOne(s, cids[0], envs(cids[0]), true);
        FlushKeysRemoval(one.session, cids[1..], pending, envs);
        var rest := FlushKeys(one.session, cids[1..], pending, envs, true);
        var later := FlushTargets(cids[1..], pending);
        assert forall c :: c in later ==> c != cids[0];
        KeptIffSkippedCons(s.coregAnswers, one.session.coregAnswers, rest.session.coregAnswers,
                           cids[0], later, one.dispatch, rest.log);
      }
    }
  }

  /** `keyOrder` is an enumeration of the answer keys (as cids): each exactly once. */
  ghost predicate EnumeratesKeys(keyOrder: seq<string>, m: map<string, string>) {
    Distinct(keyOrder) && forall c :: c in keyOrder <==> c in m
  }

  /**
   * The `shortFormSubmitted` listener: one lead per stored answer key whose cid
   * is not queued for the long form, always with sid "34" and the stored
   * answer, in key order; the keys stay stored.
   */
  function OnShortFormSubmitted(s: SessionState, keyOrder: seq<string>, envs: string -> Env): (r: Flushed)
    requires EnumeratesKeys(keyOrder, s.coregAnswers)
    ensures |r.log| == |FlushTargets(keyOrder, s.longFormCampaigns)|
    ensures var targets := FlushTargets(keyOrder, s.longFormCampaigns);
      forall k :: 0 <= k < |r.log| ==>
        && r.log[k].payload.cid == OrNull(targets[k])
        && r.log[k].payload.coregAnswer == OrNull(s.coregAnswers[targets[k]])
    ensures forall k :: 0 <= k < |r.log| ==>
      && r.log[k].payload.sid == Some("34") && !r.log[k].payload.isShortform
      && (r.log[k].payload.cid.Some? ==>
            var c := r.log[k].payload.cid.value;
            c in s.coregAnswers && !HasPendingCid(s.longFormCampaigns, c)
            && r.log[k].payload.coregAnswer == OrNull(s.coregAnswers[c]))
    ensures forall c :: c in s.coregAnswers && !HasPendingCid(s.longFormCampaigns, c) && c != "" ==>
      exists k :: 0 <= k < |r.log| && r.log[k].payload.cid == Some(c)
    ensures r.session.coregAnswers == s.coregAnswers
    ensures AtMostOnce(s.submitted, r.session.submitted, r.log)
  {
    var r := FlushKeys(s, keyOrder, s.longFormCampaigns, envs, false);
    var targets := FlushTargets(keyOrder, s.longFormCampaigns);
    FlushKeysPayloads(s, keyOrder, s.longFormCampaigns, envs, false);
    FlushKeysAnswers(s, keyOrder, s.longFormCampaigns, envs, false);
    assert forall k :: 0 <= k < |targets| ==> targets[k] in targets;
    SentAsTargetsCovers(s.coregAnswers, targets, r.log);
    r
  }

  /**
   * `flushQueuedCoregLeads`: the same loop, but a key is removed once its
   * `fetchLead` answer is anything other than "skipped"; keys of long-form
   * cids are neither sent nor removed.
   */
  function FlushQueuedCoregLeads(s: SessionState, keyOrder: seq<string>, envs: string -> Env): (r: Flushed)
    requires EnumeratesKeys(keyOrder, s.coregAnswers)
    ensures var targets := FlushTargets(keyOrder, s.longFormCampaigns);
      && |r.log| == |targets|
      && forall k :: 0 <= k < |r.log| ==>
        && r.log[k].payload.sid == Some("34") && r.log[k].payload.cid == OrNull(targets[k])
        && r.log[k].payload.coregAnswer == OrNull(s.coregAnswers[targets[k]])
        && (targets[k] in r.session.coregAnswers <==> r.log[k].result == Skipped)
    ensures forall c :: c in s.coregAnswers && HasPendingCid(s.longFormCampaigns, c) ==> c in r.session.coregAnswers
    ensures AnswersShrink(s.coregAnswers, r.session.coregAnswers)
    ensures AtMostOnce(s.submitted, r.session.submitted, r.log)
  {
    var targets := FlushTargets(keyOrder, s.longFormCampaigns);
    var r := FlushKeys(s, keyOrder, s.longFormCampaigns, envs, true);
    FlushKeysPayloads(s, keyOrder, s.longFormCampaigns, envs, true);
    FlushKeysAnswers(s, keyOrder, s.longFormCampaigns, envs, true);
    FlushKeysRemoval(s, keyOrder, s.longFormCampaigns, envs);
    SentAndKept(s.coregAnswers, r.session.coregAnswers, targets, r.log);
    r
  }

  /** The per-lead facts of a removing flush whose targets are all stored keys. */
  lemma SentAndKept(answers: map<string, string>, after: map<string, string>, targets: seq<string>, log: seq<Dispatch>)
    requires SentAsTargets(answers, targets, log) && KeptIffSkippedAll(answers, after, targets, log)
    requires forall c :: c in targets ==> c in answers
    ensures forall k :: 0 <= k < |log| ==>
      && log[k].payload.sid == Some("34") && log[k].payload.cid == OrNull(targets[k])
      && log[k].payload.coregAnswer == OrNull(answers[targets[k]])
      && (targets[k] in after <==> log[k].result == Skipped)
  {
    forall k | 0 <= k < |log|
      ensures log[k].payload.coregAnswer == OrNull(answers[targets[k]])
      ensures targets[k] in after <==> log[k].result == Skipped
    {
      assert targets[k] in targets;
      assert SentAsTarget(answers, targets[k], log[k]) && KeptIffSkipped(answers, after, targets[k], log[k]);
    }
  }

  // ---------------------------------------------------------------------------
  // Long-form submit
  // ---------------------------------------------------------------------------

  const LongFormFields: seq<string> := ["postcode", "straat", "huisnummer", "woonplaats", "telefoon"]

  /** Every required field exists and is non-blank after trimming. */
  predicate LongFormComplete(form: map<string, string>) {
    forall k :: 0 <= k < |LongFormFields| ==> LongFormFields[k] in form && Trim(form[LongFormFields[k]]) != ""
  }

  /** Store the value of each listed key that has a non-empty one; leave the others alone. */
  function StoreNonEmpty(s: SessionState, values: map<string, string>, keys: seq<string>): (r: SessionState)
    ensures forall f :: f in keys && f in values && values[f] != "" ==> Get(r, f) == values[f]
    ensures forall f :: f !in keys || f !in values || values[f] == "" ==> Get(r, f) == Get(s, f)
    ensures r.(store := s.store) == s
  {
    if |keys| == 0 then s
    else
      var f := keys[|keys| - 1];
      var s1 := StoreNonEmpty(s, values, keys[..|keys| - 1]);
      if f in values && values[f] != "" then Put(s1, f, values[f]) else s1
  }

  /** Every value of a form, trimmed. */
  function TrimValues(form: map<string, string>): (r: map<string, string>)
    ensures r.Keys == form.Keys
    ensures forall f :: f in form ==> r[f] == Trim(form[f])
  {
    map f | f in form :: Trim(form[f])
  }

  /** The tracking parameters the page stores from its URL on load. */
  const TrackingParams: seq<string> := ["t_id", "aff_id", "sub_id", "sub2", "offer_id"]

  /** Page load: store each tracking parameter the URL has with a non-empty value. */
  function StoreTrackingParams(s: SessionState, params: map<string, string>): SessionState {
    StoreNonEmpty(s, params, TrackingParams)
  }

  /**
   * A tracking parameter given on the URL reaches every later payload (with
   * "unknown" only for the ones missing), and a given t_id replaces the fresh UUID.
   */
  lemma TrackingParamsReachPayload(s: SessionState, params: map<string, string>, req: PayloadRequest, env: Env)
    ensures var p := BuildPayload(StoreTrackingParams(s, params), req, env).payload;
      && (forall f :: f in TrackingKeys && f in params && params[f] != "" ==> p.tracking[f] == params[f])
      && (forall f :: f in TrackingKeys && (f !in params || params[f] == "") && Get(s, f) == "" ==> p.tracking[f] == "unknown")
      && ("t_id" in params && params["t_id"] != "" ==> p.tId == params["t_id"])
  {
    assert forall f :: f in TrackingKeys ==> f in TrackingParams;
  }

  /** The long-form lead for entry `e`: its cid and sid, the stored answer and dropdown choice. */
  predicate SentForEntry(answers: map<string, string>, dropdowns: map<string, string>, e: PendingEntry, d: Dispatch) {
    && d.payload.cid == OrNull(e.cid) && d.payload.sid == OrNull(e.sid)
    && d.payload.coregAnswer == OrNull(Lookup(answers, e.cid, ""))
    && d.payload.dropdownAnswer == OrNull(Lookup(dropdowns, e.cid, ""))
  }

  /** Entry k of `log` is the lead for `pending[k]`. */
  predicate SentForEntries(answers: map<string, string>, dropdowns: map<string, string>, pending: seq<PendingEntry>, log: seq<Dispatch>) {
    |log| == |pending| && forall k :: 0 <= k < |log| ==> SentForEntry(answers, dropdowns, pending[k], log[k])
  }

  /** The lead for one long-form entry, with the answers the submit started from. */
  function SendEntry(s: SessionState, answers: map<string, string>, dropdowns: map<string, string>,
                     e: PendingEntry, env: Env): (r: Sent)
    ensures SentForEntry(answers, dropdowns, e, r.dispatch)
    ensures AtMostOnce(s.submitted, r.session.submitted, [r.dispatch])
    ensures LeadFrame(s, r.session) && r.session.coregAnswers == s.coregAnswers
    ensures IpOnly(s, r.session)
  {
    SendOne(s, PayloadRequest(e.cid, e.sid, Lookup(answers, e.cid, ""), Lookup(dropdowns, e.cid, ""), false), env)
  }

  /** Send one lead per long-form entry with its stored answer and dropdown choice; lead k meets `envs(k)`. */
  function SendPending(s: SessionState, pending: seq<PendingEntry>, envs: nat -> Env): (r: Flushed)
    ensures SentForEntries(s.coregAnswers, s.dropdownAnswers, pending, r.log)
    ensures AtMostOnce(s.submitted, r.session.submitted, r.log)
    ensures LeadFrame(s, r.session) && r.session.coregAnswers == s.coregAnswers
    ensures IpOnly(s, r.session)
    decreases |pending|
  {
    if |pending| == 0 then
      AtMostOnceEmpty(s.submitted);
      Flushed(s, [])
    else
      var init, e := pending[..|pending| - 1], pending[|pending| - 1];
      var r0 := SendPending(s, init, envs);
      var one := SendEntry(r0.session, s.coregAnswers, s.dropdownAnswers, e, envs(|pending| - 1));
      AtMostOnceCompose(s.submitted, r0.session.submitted, one.session.submitted, r0.log, [one.dispatch]);
      IpOnlyTrans(s, r0.session, one.session);
      SplitLast(pending);
      SentForEntriesSnoc(s.coregAnswers, s.dropdownAnswers, init, e, r0.log, one.dispatch);
      Flushed(one.session, r0.log + [one.dispatch])
  }

  lemma SentForEntriesSnoc(answers: map<string, string>, dropdowns: map<string, string>,
                           init: seq<PendingEntry>, e: PendingEntry, log: seq<Dispatch>, d: Dispatch)
    requires SentForEntries(answers, dropdowns, init, log) && SentForEntry(answers, dropdowns, e, d)
    ensures SentForEntries(answers, dropdowns, init + [e], log + [d])
  {
    var pending, all := init + [e], log + [d];
    forall k | 0 <= k < |all|
      ensures SentForEntry(answers, dropdowns, pending[k], all[k])
    {
      if k < |log| {
        assert all[k] == log[k] && pending[k] == init[k];
      }
    }
  }

  datatype LongFormResult =
    | Rejected                                          // the "fill in all fields" alert
    | Submitted(session: SessionState, log: seq<Dispatch>)  // `longFormSubmitted` is raised

  /** A complete long form stores every required field, trimmed. */
  lemma LongFormStores(s: SessionState, form: map<string, string>)
    requires LongFormComplete(form)
    ensures var s1 := StoreNonEmpty(s, TrimValues(form), LongFormFields);
      && (forall k :: 0 <= k < |LongFormFields| ==> Get(s1, LongFormFields[k]) == Trim(form[LongFormFields[k]]))
      && s1.(store := s.store) == s
  {
    assert forall k :: 0 <= k < |LongFormFields| ==> LongFormFields[k] in LongFormFields;
  }

  /** A required field holding only Unicode spaces is blank, so the long form is rejected. */
  lemma UnicodeBlankFormRejected(s: SessionState, form: map<string, string>, envs: nat -> Env)
    requires "postcode" in form && form["postcode"] == "\U{3000}\U{2003}"
    ensures SubmitLongForm(s, form, envs).Rejected?
  {
    var blank := form["postcode"];
    assert IsSpace(blank[0]) && IsSpace(blank[1]);
    TrimEmptyIffBlank(blank);
    assert LongFormFields[0] == "postcode";
  }

  /**
   * The long-form submit: rejected unless every required field is filled;
   * otherwise the fields are stored, one lead is sent per queued long-form
   * campaign (none when the queue is empty), and the queue is cleared.
   */
  function SubmitLongForm(s: SessionState, form: map<string, string>, envs: nat -> Env): (r: LongFormResult)
    ensures r.Rejected? <==> !LongFormComplete(form)
    ensures r.Submitted? ==>
      && SentForEntries(s.coregAnswers, s.dropdownAnswers, s.longFormCampaigns, r.log)
      && r.session.longFormCampaigns == []
      && (forall k :: 0 <= k < |LongFormFields| ==>
            Get(r.session, LongFormFields[k]) == Trim(form[LongFormFields[k]]))
      && AtMostOnce(s.submitted, r.session.submitted, r.log)
  {
    if !LongFormComplete(form) then Rejected
    else
      var s1 := StoreNonEmpty(s, TrimValues(form), LongFormFields);
      LongFormStores(s, form);
      var sent := SendPending(s1, s1.longFormCampaigns, envs);
      FormFieldsAreNotIp();
      IpOnlyKeeps(s1, sent.session, LongFormFields);
      Submitted(sent.session.(longFormCampaigns := []), sent.log)
  }

  // ---------------------------------------------------------------------------
  // Short-form submit
  // ---------------------------------------------------------------------------

  /**
   * The short form at submit time: whether the browser finds it valid, the
   * checked gender radio, and the values of the firstname/lastname/email/dob
   * inputs that exist.
   */
  datatype ShortFormInput = ShortFormInput(valid: bool, gender: Option<string>, fields: map<string, string>)

  const ShortFormFields: seq<string> := ["firstname", "lastname", "email"]

  /** A session, the in-flight guard, the leads attempted, and whether `shortFormSubmitted` fired. */
  datatype ShortFormResult = ShortFormResult(session: SessionState, submitting: bool, log: seq<Dispatch>, signalled: bool)

  /** Store the trimmed value of each listed field the form has, empty or not. */
  function StoreEachTrimmed(s: SessionState, form: map<string, string>, fields: seq<string>): (r: SessionState)
    ensures forall f :: f in fields && f in form ==> Get(r, f) == Trim(form[f])
    ensures forall f :: f !in fields ==> Get(r, f) == Get(s, f)
    ensures r.(store := s.store) == s
  {
    if |fields| == 0 then s
    else
      var f := fields[|fields| - 1];
      var s1 := StoreEachTrimmed(s, form, fields[..|fields| - 1]);
      if f in form then Put(s1, f, Trim(form[f])) else s1
  }

  /** How the submit stores the dob input's value. */
  datatype DobStore =
    | TrimmedDisplay     // the value trimmed, as the handler does
    | WithoutWhitespace  // the value with all whitespace removed, as the input mask stores it

  function StoredDob(how: DobStore, v: string): string {
    match how
    case TrimmedDisplay => Trim(v)
    case WithoutWhitespace => RemoveSpaces(Trim(v))
  }

  /** The stores of the submit: gender if checked, each text field trimmed, dob via `how`. */
  function StoreShortForm(s: SessionState, input: ShortFormInput, how: DobStore): (r: SessionState)
    ensures input.gender.Some? ==> Get(r, "gender") == input.gender.value
    ensures forall k :: 0 <= k < |ShortFormFields| && ShortFormFields[k] in input.fields ==>
      Get(r, ShortFormFields[k]) == Trim(input.fields[ShortFormFields[k]])
    ensures "dob" in input.fields ==> Get(r, "dob") == StoredDob(how, input.fields["dob"])
    ensures r.(store := s.store) == s
  {
    var s0 := if input.gender.Some? then Put(s, "gender", input.gender.value) else s;
    var s1 := StoreEachTrimmed(s0, input.fields, ShortFormFields);
    assert "gender" !in ShortFormFields && "dob" !in ShortFormFields;
    assert forall k :: 0 <= k < |ShortFormFields| ==> ShortFormFields[k] in ShortFormFields;
    if "dob" in input.fields then Put(s1, "dob", StoredDob(how, input.fields["dob"])) else s1
  }

  /** The submit body, with the value it stores for "dob" given by `how`. */
  function SubmitShortFormStoring(s: SessionState, submitting: bool, input: ShortFormInput, env: Env, how: DobStore): (r: ShortFormResult)
    ensures !input.valid || submitting ==> r == ShortFormResult(s, submitting, [], false)
    ensures input.valid && !submitting ==>
      && !r.submitting && r.signalled && r.session.shortFormCompleted
      && |r.log| == 1
      && r.log[0].payload.cid == Some("925") && r.log[0].payload.sid == Some("34") && r.log[0].payload.isShortform
      && ("dob" in input.fields ==> r.log[0].payload.dob == ParseDob(StoredDob(how, input.fields["dob"])))
      && r.session.shortFormCompletedKey == s.shortFormCompletedKey
      && AtMostOnce(s.submitted, r.session.submitted, r.log)
      && IpOnly(StoreShortForm(s, input, how), r.session)
  {
    if !input.valid || submitting then ShortFormResult(s, submitting, [], false)
    else
      var stored := StoreShortForm(s, input, how);
      var one := SendOne(stored, PayloadRequest("925", "34", "", "", true), env);
      ShortFormResult(one.session.(shortFormCompleted := true), false, [one.dispatch], true)
  }

  /** A submitted short form leaves the checked gender and each text field, trimmed, in the store. */
  lemma ShortFormStores(s: SessionState, input: ShortFormInput, env: Env, how: DobStore)
    requires input.valid
    ensures var r := SubmitShortFormStoring(s, false, input, env, how);
      && (input.gender.Some? ==> Get(r.session, "gender") == input.gender.value)
      && (forall k :: 0 <= k < |ShortFormFields| && ShortFormFields[k] in input.fields ==>
            Get(r.session, ShortFormFields[k]) == Trim(input.fields[ShortFormFields[k]]))
  {
    var stored := StoreShortForm(s, input, how);
    var r := SubmitShortFormStoring(s, false, input, env, how);
    FormFieldsAreNotIp();
    IpOnlyKeeps(stored, r.session, ShortFormFields);
  }

  /**
   * The short-form submit handler: ignored while invalid or while a previous
   * submit is in flight; otherwise it stores the fields (each trimmed), sends
   * the short-form lead 925/34, marks the short form completed, raises
   * `shortFormSubmitted`, and releases the guard.
   */
  function SubmitShortForm(s: SessionState, submitting: bool, input: ShortFormInput, env: Env): ShortFormResult {
    SubmitShortFormStoring(s, submitting, input, env, TrimmedDisplay)
  }

  /** The same handler storing the dob without whitespace, as the input mask does. */
  function SubmitShortFormFixed(s: SessionState, submitting: bool, input: ShortFormInput, env: Env): ShortFormResult {
    SubmitShortFormStoring(s, submitting, input, env, WithoutWhitespace)
  }

  /** The short-form lead's dob is parsed from the dob field as the submit stores it. */
  lemma ShortFormLeadDob(s: SessionState, input: ShortFormInput, env: Env, how: DobStore)
    requires input.valid && "dob" in input.fields
    ensures SubmitShortFormStoring(s, false, input, env, how).log[0].payload.dob == ParseDob(StoredDob(how, input.fields["dob"]))
  {
  }

  /** The handler as written parses the trimmed display value. */
  lemma AsWrittenLeadDob(s: SessionState, input: ShortFormInput, env: Env)
    requires input.valid && "dob" in input.fields
    ensures SubmitShortForm(s, false, input, env).log[0].payload.dob == ParseDob(Trim(input.fields["dob"]))
  {
    ShortFormLeadDob(s, input, env, TrimmedDisplay);
  }

  /** The corrected handler parses the display value without whitespace. */
  lemma FixedLeadDob(s: SessionState, input: ShortFormInput, env: Env)
    requires input.valid && "dob" in input.fields
    ensures SubmitShortFormFixed(s, false, input, env).log[0].payload.dob == ParseDob(RemoveSpaces(Trim(input.fields["dob"])))
  {
    ShortFormLeadDob(s, input, env, WithoutWhitespace);
  }

  /**
   * As written: after typing eight digits ddmmyyyy, the short-form lead's dob
   * is " yyyy- mm -dd " (the display value's spaces survive), not "yyyy-mm-dd".
   */
  lemma ShortFormDobAsWritten(s: SessionState, typed: string, rest: map<string, string>, env: Env)
    requires |KeepDigits(typed)| >= 8
    ensures var input := ShortFormInput(true, None, rest["dob" := OnDobInput(typed).display]);
      var dob := SubmitShortForm(s, false, input, env).log[0].payload.dob;
      dob == SpacedIsoDate(KeepDigits(typed)) && dob != IsoDate(KeepDigits(typed))
  {
    var input := ShortFormInput(true, None, rest["dob" := OnDobInput(typed).display]);
    TrimmedDisplayOfTyped(typed);
    AsWrittenLeadDob(s, input, env);
  }

  /** Corrected: the short-form lead's dob is "yyyy-mm-dd" for eight typed digits. */
  lemma ShortFormDobCorrected(s: SessionState, typed: string, rest: map<string, string>, env: Env)
    requires |KeepDigits(typed)| >= 8
    ensures var input := ShortFormInput(true, None, rest["dob" := OnDobInput(typed).display]);
      SubmitShortFormFixed(s, false, input, env).log[0].payload.dob == IsoDate(KeepDigits(typed))
  {
    var input := ShortFormInput(true, None, rest["dob" := OnDobInput(typed).display]);
    StrippedDisplayOfTyped(typed);
    FixedLeadDob(s, input, env);
  }
}
