/**
 * `buildCoregPayload` of the coreg renderer: the per-cid answer accumulator
 * and the payload built from its " - "-joined contents.
 */
module Answers {
  import opened Base
  import opened Text
  import opened Session
  import opened Catalog
  import opened Payloads

  predicate NoDuplicates(xs: seq<string>) {
    forall i, j :: 0 <= i < j < |xs| ==> xs[i] != xs[j]
  }

  /** Add a non-empty answer that is not there yet; otherwise keep the list. */
  function Accumulate(prev: seq<string>, answer: string): (r: seq<string>)
    ensures prev <= r && |r| <= |prev| + 1
    ensures answer != "" ==> answer in r
    ensures forall a :: a in r ==> a in prev || a == answer
    ensures NoDuplicates(prev) ==> NoDuplicates(r)
    ensures "" !in prev ==> "" !in r
  {
    if answer != "" && answer !in prev then prev + [answer] else prev
  }

  /** The accumulator after a series of answers, applied first to last. */
  function AccumulateAll(prev: seq<string>, answers: seq<string>): seq<string> {
    if |answers| == 0 then prev
    else Accumulate(AccumulateAll(prev, answers[..|answers| - 1]), answers[|answers| - 1])
  }

  /** The non-empty answers at the position of their first occurrence. */
  function FirstOccurrences(answers: seq<string>): seq<string> {
    if |answers| == 0 then []
    else
      var init, a := answers[..|answers| - 1], answers[|answers| - 1];
      FirstOccurrences(init) + (if a != "" && a !in init then [a] else [])
  }

  lemma {:induction false} FirstOccurrencesMembers(answers: seq<string>)
    ensures forall a :: a in FirstOccurrences(answers) <==> a in answers && a != ""
    ensures NoDuplicates(FirstOccurrences(answers))
    decreases |answers|
  {
    if |answers| > 0 {
      var init, a := answers[..|answers| - 1], answers[|answers| - 1];
      FirstOccurrencesMembers(init);
      assert answers == init + [a];
    }
  }

  /**
   * Starting from nothing, the accumulator holds every distinct non-empty
   * answer given, in the order first given.
   */
  lemma {:induction false} AccumulateAllIsFirstOccurrences(answers: seq<string>)
    ensures AccumulateAll([], answers) == FirstOccurrences(answers)
    decreases |answers|
  {
    if |answers| > 0 {
      var init, a := answers[..|answers| - 1], answers[|answers| - 1];
      AccumulateAllIsFirstOccurrences(init);
      FirstOccurrencesMembers(init);
    }
  }

  /** `answerValue.cid` when set, else the campaign's cid. */
  function RouteCid(camp: Campaign, av: AnswerValue): string {
    if av.cid != "" then av.cid else camp.cid
  }

  /** `answerValue.sid` when set, else the campaign's sid. */
  function RouteSid(camp: Campaign, av: AnswerValue): string {
    if av.sid != "" then av.sid else camp.sid
  }

  /**
   * The session part of `buildCoregPayload`: the accumulated list under `cid`
   * and its " - "-join as the cid's answer string.
   */
  function RecordAnswer(s: SessionState, cid: string, answer: string): (r: SessionState)
    ensures AnswerList(r, cid) == Accumulate(AnswerList(s, cid), answer)
    ensures forall c :: c != cid ==> Lookup(r.answerLists, c, []) == Lookup(s.answerLists, c, [])
    ensures r.coregAnswers == s.coregAnswers[cid := Join(AnswerList(r, cid), " - ")]
    ensures Grows(s, r)
    ensures r.(answerLists := s.answerLists, coregAnswers := s.coregAnswers) == s
  {
    var prev := AnswerList(s, cid);
    var lists := if answer != "" && answer !in prev then s.answerLists[cid := prev + [answer]] else s.answerLists;
    s.(answerLists := lists, coregAnswers := s.coregAnswers[cid := Join(Accumulate(prev, answer), " - ")])
  }

  /**
   * `buildCoregPayload`: accumulate the answer under the routed cid, store the
   * " - "-join as that cid's answer string, and build a non-short-form payload
   * carrying it and the cid's stored dropdown choice.
   */
  function BuildCoregPayload(s: SessionState, camp: Campaign, av: AnswerValue, env: Env): (b: Built)
    ensures var cid := RouteCid(camp, av);
      var s1 := RecordAnswer(s, cid, av.answer);
      && b.session == GetIpOnce(s1, env.fetchedIp).session
      && b.payload.cid == OrNull(cid) && b.payload.sid == OrNull(RouteSid(camp, av))
      && b.payload.coregAnswer == OrNull(Join(AnswerList(s1, cid), " - "))
      && b.payload.dropdownAnswer == OrNull(Lookup(s.dropdownAnswers, cid, ""))
      && !b.payload.isShortform
    ensures var s1 := RecordAnswer(s, RouteCid(camp, av), av.answer);
      b.session.answerLists == s1.answerLists && b.session.coregAnswers == s1.coregAnswers
  {
    var cid, sid := RouteCid(camp, av), RouteSid(camp, av);
    var s1 := RecordAnswer(s, cid, av.answer);
    var combined := Join(AnswerList(s1, cid), " - ");
    var built := BuildPayload(s1, PayloadRequest(cid, sid, combined, "", false), env);
    var dropdown := Lookup(built.session.dropdownAnswers, cid, "");
    if dropdown != "" then Built(built.payload.(dropdownAnswer := Some(dropdown)), built.session)
    else built
  }

  /** The first answer of a cid goes out alone, under the routed cid and sid. */
  lemma FirstAnswerPayload(s: SessionState, camp: Campaign, av: AnswerValue, env: Env)
    requires AnswerList(s, RouteCid(camp, av)) == [] && av.answer != ""
    ensures var p := BuildCoregPayload(s, camp, av, env).payload;
      && p.cid == OrNull(RouteCid(camp, av)) && p.sid == OrNull(RouteSid(camp, av))
      && p.coregAnswer == Some(av.answer)
  {
    var cid := RouteCid(camp, av);
    assert Accumulate([], av.answer) == [av.answer];
    assert Join([av.answer], " - ") == av.answer;
  }
}
