/**
 * The answer handlers of the coreg renderer: for every button click,
 * dropdown selection or skip link, what happens to the session, which lead is
 * dispatched, and how the walk advances.
 */
module Handlers {
  import opened Base
  import opened Session
  import opened Catalog
  import opened Walk
  import opened Payloads
  import opened Leads
  import opened Answers

  /** An answer button as rendered: its `data-answer`, routing, and the `btn-skip` class. */
  datatype Button = Button(answer: string, cid: string, sid: string, isSkip: bool)

  /** A selected dropdown option: its value and routing. */
  datatype Choice = Choice(value: string, cid: string, sid: string)

  /** A field written into the markup by a template literal: "undefined" when the record lacks it. */
  function Rendered(x: Option<string>): (r: string)
    ensures x.None? ==> r == "undefined"
    ensures x.Some? ==> r == x.value
  {
    if x.Some? then x.value else "undefined"
  }

  /** The `data-cid` of an option: its own cid as rendered, or the campaign's. */
  function OptionCid(camp: Campaign, opt: AnswerOption): string {
    if Truthy(opt.hasOwnCampaign) then Rendered(opt.cid) else camp.cid
  }

  /** The `data-sid` of an option: its own sid as rendered, or the campaign's. */
  function OptionSid(camp: Campaign, opt: AnswerOption): string {
    if Truthy(opt.hasOwnCampaign) then Rendered(opt.sid) else camp.sid
  }

  /** The button of an answer option: `answer_value || "yes"`. */
  function AnswerButton(camp: Campaign, opt: AnswerOption): (b: Button)
    ensures !b.isSkip && b.answer != ""
    ensures b.answer == (if opt.value.Some? && opt.value.value != "" then opt.value.value else "yes")
    ensures b.cid == (if Truthy(opt.hasOwnCampaign) then Rendered(opt.cid) else camp.cid)
    ensures b.sid == (if Truthy(opt.hasOwnCampaign) then Rendered(opt.sid) else camp.sid)
  {
    Button(if opt.value.Some? && opt.value.value != "" then opt.value.value else "yes",
           OptionCid(camp, opt), OptionSid(camp, opt), false)
  }

  /** The "Nee, geen interesse" button every button campaign gets. */
  function SkipButton(camp: Campaign): Button {
    Button("no", camp.cid, camp.sid, true)
  }

  /**
   * The dropdown option of an answer option: its `value` attribute is
   * `answer_value` as rendered, so an option without one selects "undefined".
   */
  function OptionChoice(camp: Campaign, opt: AnswerOption): (c: Choice)
    ensures opt.value.None? ==> c.value == "undefined"
    ensures opt.value.Some? ==> c.value == opt.value.value
    ensures c.cid == (if Truthy(opt.hasOwnCampaign) then Rendered(opt.cid) else camp.cid)
    ensures c.sid == (if Truthy(opt.hasOwnCampaign) then Rendered(opt.sid) else camp.sid)
  {
    Choice(Rendered(opt.value), OptionCid(camp, opt), OptionSid(camp, opt))
  }

  /**
   * An option with its own campaign but no cid routes to the cid "undefined":
   * the rendered text is not empty, so the campaign's cid is not used instead.
   */
  lemma OwnOptionWithoutCid(camp: Campaign, opt: AnswerOption)
    requires Truthy(opt.hasOwnCampaign) && opt.cid.None?
    ensures var b := AnswerButton(camp, opt);
      RouteCid(camp, AnswerValue(b.answer, b.cid, b.sid)) == "undefined"
    ensures var c := OptionChoice(camp, opt);
      RouteCid(camp, AnswerValue(c.value, c.cid, c.sid)) == "undefined"
  {
  }

  /** `btn.classList.contains("btn-skip") || answer === "no"`. */
  predicate IsNegative(b: Button) {
    b.isSkip || b.answer == "no"
  }

  /** The skip button is negative; so is an answer option whose value is literally "no". */
  lemma NegativeButtons(camp: Campaign, opt: AnswerOption)
    ensures IsNegative(SkipButton(camp))
    ensures IsNegative(AnswerButton(camp, opt)) <==> opt.value == Some("no")
  {
  }

  /** Some section after `i` shows a campaign with this cid. */
  predicate HasLaterStep(sections: seq<Section>, i: nat, cid: string) {
    exists j :: i < j < |sections| && sections[j].camp.cid == cid
  }

  /** What one handler call leaves: session, display, signal raised, leads attempted. */
  datatype Step = Step(session: SessionState, flow: FlowState, signal: Signal, log: seq<Dispatch>)

  /** Advance from section `i` with session `s` (read by the final signal). */
  function Move(f: FlowState, i: nat, s: SessionState, log: seq<Dispatch>): Step
    requires i < |f.visible|
  {
    var m := Advance(f, i, s);
    Step(s, m.flow, m.signal, log)
  }

  /** Set the long-form flag and queue `{cid, sid}` unless the cid is queued already. */
  function QueueLongForm(s: SessionState, camp: Campaign): SessionState {
    s.(requiresLongForm := true,
       longFormCampaigns := AddPending(s.longFormCampaigns, PendingEntry(camp.cid, camp.sid)))
  }

  /** Build the coreg payload, call `fetchLead`, and advance. */
  function Send(f: FlowState, i: nat, s: SessionState, camp: Campaign, av: AnswerValue, env: Env): (r: Step)
    requires i < |f.visible|
    ensures var b := BuildCoregPayload(s, camp, av, env);
      var o := FetchLead(b.session.submitted, b.payload, env.completes);
      && r.log == [Dispatch(b.payload, o.result)]
      && r.session == b.session.(submitted := o.submitted)
    ensures r.flow == Advance(f, i, r.session).flow && r.signal == Advance(f, i, r.session).signal
    ensures var s1 := RecordAnswer(s, RouteCid(camp, av), av.answer);
      r.session.answerLists == s1.answerLists && r.session.coregAnswers == s1.coregAnswers
    ensures Grows(s, r.session) && AtMostOnce(s.submitted, r.session.submitted, r.log)
    ensures r.session.longFormCampaigns == s.longFormCampaigns
  {
    var b := BuildCoregPayload(s, camp, av, env);
    var o := FetchLead(b.session.submitted, b.payload, env.completes);
    GrowsTransitive(s, b.session, b.session.(submitted := o.submitted));
    Move(f, i, b.session.(submitted := o.submitted), [Dispatch(b.payload, o.result)])
  }

  /** The click handler of the answer and skip buttons of section `i`. */
  function OnClick(sections: seq<Section>, f: FlowState, s: SessionState, i: nat, b: Button, env: Env): (r: Step)
    requires i < |sections| == |f.visible|
    ensures r.flow == Advance(f, i, r.session).flow && r.signal == Advance(f, i, r.session).signal
    ensures IsNegative(b) ==> r.session == s && r.log == []
    ensures var camp := sections[i].camp;
      !IsNegative(b) && camp.requiresLongForm ==>
        && r.log == [] && r.session.requiresLongForm
        && r.session.longFormCampaigns == AddPending(s.longFormCampaigns, PendingEntry(camp.cid, camp.sid))
        && r.session.coregAnswers == s.coregAnswers[camp.cid := b.answer]
        && r.session.answerLists == s.answerLists && r.session.submitted == s.submitted
    ensures var camp := sections[i].camp;
      !IsNegative(b) && !camp.requiresLongForm && camp.isShortformCoreg && !s.shortFormCompletedKey ==>
        && r.log == []
        && r.session == s.(pendingShortCoreg := s.pendingShortCoreg + [AnswerValue(b.answer, b.cid, b.sid)])
    ensures var camp := sections[i].camp;
      !IsNegative(b) && !camp.requiresLongForm && camp.isShortformCoreg && s.shortFormCompletedKey ==>
        |r.log| == 1
    ensures var camp := sections[i].camp;
      !IsNegative(b) && !camp.requiresLongForm && !camp.isShortformCoreg ==>
        (|r.log| == 1 <==> !HasLaterStep(sections, i, camp.cid)) && |r.log| <= 1
    ensures var camp := sections[i].camp;
      !IsNegative(b) && !camp.requiresLongForm && !camp.isShortformCoreg && HasLaterStep(sections, i, camp.cid) ==>
        r.session == s
    ensures |r.log| == 1 ==>
      r.log[0].payload == BuildCoregPayload(s, sections[i].camp, AnswerValue(b.answer, b.cid, b.sid), env).payload
    ensures |r.log| == 1 ==>
      var s1 := RecordAnswer(s, RouteCid(sections[i].camp, AnswerValue(b.answer, b.cid, b.sid)), b.answer);
      r.session.answerLists == s1.answerLists && r.session.coregAnswers == s1.coregAnswers
    ensures Grows(s, r.session) && AtMostOnce(s.submitted, r.session.submitted, r.log)
    ensures UniqueByCid(s.longFormCampaigns) ==> UniqueByCid(r.session.longFormCampaigns)
  {
    var camp := sections[i].camp;
    var av := AnswerValue(b.answer, b.cid, b.sid);
    var shortDone := s.shortFormCompletedKey;
    if IsNegative(b) then Move(f, i, s, [])
    else if camp.requiresLongForm then
      Move(f, i, QueueLongForm(s, camp).(coregAnswers := s.coregAnswers[camp.cid := b.answer]), [])
    else if camp.isShortformCoreg then
      if !shortDone then Move(f, i, s.(pendingShortCoreg := s.pendingShortCoreg + [av]), [])
      else Send(f, i, s, camp, av, env)
    else if HasLaterStep(sections, i, camp.cid) then Move(f, i, s, [])
    else Send(f, i, s, camp, av, env)
  }

  /**
   * What every non-empty selection stores first: the choice as the cid's
   * dropdown answer and as its answer string; nothing else changes.
   */
  function SelectStored(s: SessionState, cid: string, value: string): (r: SessionState)
    ensures Lookup(r.dropdownAnswers, cid, "") == value && Lookup(r.coregAnswers, cid, "") == value
    ensures forall c :: c != cid ==>
      Lookup(r.dropdownAnswers, c, "") == Lookup(s.dropdownAnswers, c, "")
      && Lookup(r.coregAnswers, c, "") == Lookup(s.coregAnswers, c, "")
    ensures r.(dropdownAnswers := s.dropdownAnswers, coregAnswers := s.coregAnswers) == s
  {
    s.(dropdownAnswers := s.dropdownAnswers[cid := value], coregAnswers := s.coregAnswers[cid := value])
  }

  /** The change handler of the dropdown of section `i`. */
  function OnSelect(sections: seq<Section>, f: FlowState, s: SessionState, i: nat, c: Choice, env: Env): (r: Step)
    requires i < |sections| == |f.visible|
    ensures c.value == "" ==> r == Step(s, f, NoSignal, [])
    ensures c.value != "" ==>
      r.flow == Advance(f, i, r.session).flow && r.signal == Advance(f, i, r.session).signal
    ensures var camp := sections[i].camp;
      c.value != "" ==> Lookup(r.session.dropdownAnswers, camp.cid, "") == c.value
    ensures var camp := sections[i].camp;
      c.value != "" && camp.requiresLongForm ==>
        && r.log == [] && r.session.requiresLongForm
        && r.session.longFormCampaigns == AddPending(s.longFormCampaigns, PendingEntry(camp.cid, camp.sid))
        && r.session.coregAnswers == s.coregAnswers[camp.cid := c.value]
        && r.session.answerLists == s.answerLists && r.session.submitted == s.submitted
    ensures var camp := sections[i].camp;
      c.value != "" && !camp.requiresLongForm ==>
        (|r.log| == 1 <==> !HasLaterStep(sections, i, camp.cid)) && |r.log| <= 1
    ensures var camp := sections[i].camp;
      c.value != "" && !camp.requiresLongForm && HasLaterStep(sections, i, camp.cid) ==>
        r.session == SelectStored(s, camp.cid, c.value)
    ensures var camp := sections[i].camp;
      var av := AnswerValue(c.value, c.cid, c.sid);
      var s1 := SelectStored(s, camp.cid, c.value);
      |r.log| == 1 ==>
        && r.log[0].payload == BuildCoregPayload(s1, camp, av, env).payload
        && r.session.answerLists == RecordAnswer(s1, RouteCid(camp, av), c.value).answerLists
        && r.session.coregAnswers == RecordAnswer(s1, RouteCid(camp, av), c.value).coregAnswers
    ensures Grows(s, r.session) && AtMostOnce(s.submitted, r.session.submitted, r.log)
    ensures UniqueByCid(s.longFormCampaigns) ==> UniqueByCid(r.session.longFormCampaigns)
  {
    if c.value == "" then Step(s, f, NoSignal, [])
    else
      var camp := sections[i].camp;
      var s1 := SelectStored(s, camp.cid, c.value);
      var av := AnswerValue(c.value, c.cid, c.sid);
      if camp.requiresLongForm then Move(f, i, QueueLongForm(s1, camp), [])
      else if HasLaterStep(sections, i, camp.cid) then Move(f, i, s1, [])
      else Send(f, i, s1, camp, av, env)
  }

  /** Selecting an option that has no `answer_value` stores and routes the text "undefined". */
  lemma OptionWithoutValueIsStored(sections: seq<Section>, f: FlowState, s: SessionState, i: nat, opt: AnswerOption, env: Env)
    requires i < |sections| == |f.visible| && opt.value.None?
    ensures var camp := sections[i].camp;
      var r := OnSelect(sections, f, s, i, OptionChoice(camp, opt), env);
      Lookup(r.session.dropdownAnswers, camp.cid, "") == "undefined"
  {
  }

  /** The skip link of a dropdown section: advance, nothing else. */
  function OnSkipLink(f: FlowState, s: SessionState, i: nat): (r: Step)
    requires i < |f.visible|
    ensures r.session == s && r.log == []
    ensures r.flow == Advance(f, i, s).flow && r.signal == Advance(f, i, s).signal
  {
    Move(f, i, s, [])
  }
}

/**
 * A whole coreg session: a series of handler events over a fixed section
 * sequence, and the invariants every such series keeps.
 */
module Flow {
  import opened Base
  import opened Session
  import opened Catalog
  import opened Walk
  import opened Payloads
  import opened Leads
  import opened Answers
  import opened Handlers

  /** One visitor action on section `section`. */
  datatype Event =
    | Click(section: nat, button: Button)
    | Select(section: nat, choice: Choice)
    | SkipLink(section: nat)

  /** Route an event to its handler. */
  function Handle(sections: seq<Section>, f: FlowState, s: SessionState, e: Event, env: Env): (r: Step)
    requires e.section < |sections| == |f.visible|
    ensures |r.flow.visible| == |f.visible|
    ensures VisibleCount(f.visible) <= 1 ==> VisibleCount(r.flow.visible) <= 1
    ensures Grows(s, r.session) && AtMostOnce(s.submitted, r.session.submitted, r.log)
    ensures UniqueByCid(s.longFormCampaigns) ==> UniqueByCid(r.session.longFormCampaigns)
    ensures sections[e.section].camp.requiresLongForm ==> r.log == []
  {
    match e
    case Click(i, b) => OnClick(sections, f, s, i, b, env)
    case Select(i, c) => OnSelect(sections, f, s, i, c, env)
    case SkipLink(i) => OnSkipLink(f, s, i)
  }

  predicate EventsFit(sections: seq<Section>, events: seq<Event>) {
    forall k :: 0 <= k < |events| ==> events[k].section < |sections|
  }

  /** The state after a series of events: session, display, signals raised, leads attempted. */
  datatype Trace = Trace(session: SessionState, flow: FlowState, signals: seq<Signal>, log: seq<Dispatch>)

  /**
   * The events in order; event k meets the world `envs[k]` (its own IP answer,
   * UUID, time and network outcome, so a key that failed may complete later).
   */
  function Run(sections: seq<Section>, f: FlowState, s: SessionState, events: seq<Event>, envs: seq<Env>): (t: Trace)
    requires |sections| == |f.visible| && EventsFit(sections, events) && |envs| == |events|
    ensures |t.flow.visible| == |f.visible| && |t.signals| == |events|
  {
    if |events| == 0 then Trace(s, f, [], [])
    else
      var t0 := Run(sections, f, s, events[..|events| - 1], envs[..|envs| - 1]);
      var st := Handle(sections, t0.flow, t0.session, events[|events| - 1], envs[|envs| - 1]);
      Trace(st.session, st.flow, t0.signals + [st.signal], t0.log + st.log)
  }

  /**
   * Over any series of events: at most one section is ever visible, the
   * accumulators, queues and submitted set only grow, every completed lead has
   * a key that was not submitted before and no key completes twice, and the
   * long-form list stays unique by cid.
   */
  lemma {:induction false} RunKeepsInvariants(sections: seq<Section>, f: FlowState, s: SessionState, events: seq<Event>, envs: seq<Env>)
    requires |sections| == |f.visible| && EventsFit(sections, events) && |envs| == |events|
    requires VisibleCount(f.visible) <= 1
    ensures var t := Run(sections, f, s, events, envs);
      && VisibleCount(t.flow.visible) <= 1
      && Grows(s, t.session)
      && AtMostOnce(s.submitted, t.session.submitted, t.log)
      && (UniqueByCid(s.longFormCampaigns) ==> UniqueByCid(t.session.longFormCampaigns))
    decreases |events|
  {
    if |events| == 0 {
      AtMostOnceEmpty(s.submitted);
    } else {
      var init, envs0 := events[..|events| - 1], envs[..|envs| - 1];
      RunKeepsInvariants(sections, f, s, init, envs0);
      var t0 := Run(sections, f, s, init, envs0);
      var st := Handle(sections, t0.flow, t0.session, events[|events| - 1], envs[|envs| - 1]);
      GrowsTransitive(s, t0.session, st.session);
      AtMostOnceCompose(s.submitted, t0.session.submitted, st.session.submitted, t0.log, st.log);
    }
  }

  /** The session the renderer starts from, before any answer. */
  function FreshSession(): SessionState {
    SessionState(map[], false, [], map[], map[], map[], false, [], {}, false)
  }

  /** A catalog of one campaign renders as one section, which is the last. */
  lemma OneCampaignSections(camp: Campaign)
    ensures BuildSections([camp]) == [Section(camp, true)]
  {
    var g := Groups([camp]);
    var empty: map<string, seq<nat>> := map[];
    assert Groups([camp][..0]) == empty by {
      assert [camp][..0] == [];
    }
    if camp.hasCoregFlow {
      assert Lookup(empty, camp.cid, []) + [0] == [0];
      assert g == map[camp.cid := [0]];
    } else {
      assert g == empty;
    }
    assert Block([camp], g, 0) == [Section(camp, true)];
    assert SectionsUpTo([camp], g, 1) == [] + Block([camp], g, 0);
  }

  /**
   * A single button campaign cid "10"/sid "1" answered "yes": one lead for
   * "10"/"1" with answer "yes", and the walk finishes.
   */
  lemma SingleCampaignYes(env: Env)
    ensures var opt := AnswerOption("Ja", Some("yes"), Absent, None, None);
      var camp := Campaign("c1", "10", "1", Some(1), [opt], false, false, false);
      var sections := BuildSections([camp]);
      |sections| == 1 &&
      var r := OnClick(sections, Init(1), FreshSession(), 0, AnswerButton(camp, opt), env);
      && |r.log| == 1
      && r.log[0].payload.cid == Some("10") && r.log[0].payload.sid == Some("1")
      && r.log[0].payload.coregAnswer == Some("yes")
      && r.signal == Finish
      && (env.completes("10_1") ==> r.log[0].result == Completed && "10_1" in r.session.submitted)
  {
    var opt := AnswerOption("Ja", Some("yes"), Absent, None, None);
    var camp := Campaign("c1", "10", "1", Some(1), [opt], false, false, false);
    var sections := BuildSections([camp]);
    OneCampaignSections(camp);
    assert !HasLaterStep(sections, 0, "10");
    assert AnswerButton(camp, opt) == Button("yes", "10", "1", false);
    SingleCampaignPayload(camp, env);
  }

  /** The payload the "yes" of the single campaign builds from a fresh session. */
  lemma SingleCampaignPayload(camp: Campaign, env: Env)
    requires camp.cid == "10" && camp.sid == "1"
    ensures var p := BuildCoregPayload(FreshSession(), camp, AnswerValue("yes", "10", "1"), env).payload;
      && p.cid == Some("10") && p.sid == Some("1") && p.coregAnswer == Some("yes")
      && DedupKey(p) == "10_1"
  {
    var s, av := FreshSession(), AnswerValue("yes", "10", "1");
    FirstAnswerPayload(s, camp, av, env);
    var p := BuildCoregPayload(s, camp, av, env).payload;
    assert DedupKey(p) == "10" + "_" + "1";
  }

  /**
   * Two sections sharing cid "20" answered "a" then "b": the first answer is
   * never accumulated (its section has a later step with the same cid), so
   * the single lead carries "b", not "a - b".
   */
  lemma SharedCidKeepsLastAnswer(env: Env)
    ensures var c1 := Campaign("s1", "20", "5", Some(1), [], false, false, false);
      var c2 := Campaign("s2", "20", "5", Some(2), [], false, false, false);
      var sections := [Section(c1, false), Section(c2, true)];
      var r1 := OnClick(sections, Init(2), FreshSession(), 0, Button("a", "20", "5", false), env);
      var r2 := OnClick(sections, r1.flow, r1.session, 1, Button("b", "20", "5", false), env);
      && r1.log == [] && r1.session == FreshSession()
      && |r2.log| == 1 && r2.log[0].payload.coregAnswer == Some("b")
      && r2.signal == Finish
  {
    var c1 := Campaign("s1", "20", "5", Some(1), [], false, false, false);
    var c2 := Campaign("s2", "20", "5", Some(2), [], false, false, false);
    var sections := [Section(c1, false), Section(c2, true)];
    assert HasLaterStep(sections, 0, "20") by {
      assert sections[1].camp.cid == "20";
    }
    assert !HasLaterStep(sections, 1, "20");
    var s := FreshSession();
    assert AnswerList(RecordAnswer(s, "20", "b"), "20") == ["b"];
    assert Text.Join(["b"], " - ") == "b";
  }
}
