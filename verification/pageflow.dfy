/**
 * The page-section navigator: which sections are shown when the page loads,
 * and which section replaces the coreg section once the coreg flow completes
 * (skipping IVR sections for online visitors), with the one-time Sovendus start.
 */
module PageFlow {
  import opened Base

  /** An element among the page's sibling sections, with its id and classes. */
  datatype Element = Element(id: string, isFlowSection: bool, isIvrSection: bool)

  predicate IsSection(e: Element) {
    e.isFlowSection || e.isIvrSection
  }

  /** The `status` URL parameter, "online" when absent or empty. */
  function Status(param: Option<string>): (st: string)
    ensures st != ""
    ensures param.Some? && param.value != "" ==> st == param.value
    ensures param.None? || param.value == "" ==> st == "online"
  {
    if param.Some? && param.value != "" then param.value else "online"
  }

  /** The first section at or after `from` that is not an IVR section, or |page|. */
  function FirstNonIvr(page: seq<Element>, from: nat): (i: nat)
    requires from <= |page|
    ensures from <= i <= |page|
    ensures i < |page| ==> IsSection(page[i]) && !page[i].isIvrSection
    ensures forall k :: from <= k < i ==> !(IsSection(page[k]) && !page[k].isIvrSection)
    decreases |page| - from
  {
    if from == |page| then from
    else if IsSection(page[from]) && !page[from].isIvrSection then from
    else FirstNonIvr(page, from + 1)
  }

  /**
   * On load: every section is hidden, then the first section that is not an
   * IVR section is shown; elements that are not sections keep their display.
   */
  function InitialVisibility(page: seq<Element>, shown: seq<bool>): (vis: seq<bool>)
    requires |shown| == |page|
    ensures |vis| == |page|
    ensures forall i :: 0 <= i < |page| && IsSection(page[i]) ==> (vis[i] <==> i == FirstNonIvr(page, 0))
    ensures forall i :: 0 <= i < |page| && !IsSection(page[i]) ==> vis[i] == shown[i]
  {
    var first := FirstNonIvr(page, 0);
    seq(|page|, i requires 0 <= i < |page| => if IsSection(page[i]) then i == first else shown[i])
  }

  /** How many sections a visibility vector shows. */
  function ShownSections(page: seq<Element>, vis: seq<bool>): (n: nat)
    requires |vis| == |page|
    ensures n <= |page|
  {
    if |page| == 0 then 0
    else ShownSections(page[..|page| - 1], vis[..|vis| - 1])
         + (if IsSection(page[|page| - 1]) && vis[|vis| - 1] then 1 else 0)
  }

  /** If at most one index is a shown section, the count is at most one; it is one when `j` is such an index. */
  lemma {:induction false} ShownSectionsOfOne(page: seq<Element>, vis: seq<bool>, j: int)
    requires |vis| == |page|
    requires forall i :: 0 <= i < |page| && IsSection(page[i]) && vis[i] ==> i == j
    ensures ShownSections(page, vis) <= 1
    ensures 0 <= j < |page| && IsSection(page[j]) && vis[j] ==> ShownSections(page, vis) == 1
    decreases |page|
  {
    if |page| > 0 {
      var n := |page| - 1;
      ShownSectionsOfOne(page[..n], vis[..n], j);
      if j < n {
        assert !(IsSection(page[n]) && vis[n]);
      }
      if j == n {
        ShownSectionsNone(page[..n], vis[..n]);
      }
    }
  }

  lemma {:induction false} ShownSectionsNone(page: seq<Element>, vis: seq<bool>)
    requires |vis| == |page|
    requires forall i :: 0 <= i < |page| && IsSection(page[i]) ==> !vis[i]
    ensures ShownSections(page, vis) == 0
    decreases |page|
  {
    if |page| > 0 {
      ShownSectionsNone(page[..|page| - 1], vis[..|vis| - 1]);
    }
  }

  /** After loading, exactly one section is shown when a non-IVR section exists, none otherwise. */
  lemma InitialShowsOneSection(page: seq<Element>, shown: seq<bool>)
    requires |shown| == |page|
    ensures var vis := InitialVisibility(page, shown);
      ShownSections(page, vis) == (if FirstNonIvr(page, 0) < |page| then 1 else 0)
  {
    var vis := InitialVisibility(page, shown);
    var first := FirstNonIvr(page, 0);
    ShownSectionsOfOne(page, vis, first);
    if first == |page| {
      ShownSectionsNone(page, vis);
    }
  }

  /** From `j` on, skip IVR sections while the status is "online". */
  function SkipIvr(page: seq<Element>, j: nat, status: string): (r: nat)
    requires j <= |page|
    ensures j <= r <= |page|
    ensures forall k :: j <= k < r ==> page[k].isIvrSection && status == "online"
    ensures r < |page| ==> !(page[r].isIvrSection && status == "online")
    decreases |page| - j
  {
    if j < |page| && page[j].isIvrSection && status == "online" then SkipIvr(page, j + 1, status) else j
  }

  /** The section shown after the coreg section `cur`, if there is a sibling left. */
  function NextSection(page: seq<Element>, cur: nat, status: string): (next: Option<nat>)
    requires cur < |page|
    ensures next.Some? ==> cur < next.value < |page|
    ensures next.Some? ==> !(page[next.value].isIvrSection && status == "online")
    ensures next.Some? ==> forall k :: cur < k < next.value ==> page[k].isIvrSection && status == "online"
    ensures next.None? <==> forall k :: cur < k < |page| ==> page[k].isIvrSection && status == "online"
    ensures status != "online" ==> next == if cur + 1 < |page| then Some(cur + 1) else None
  {
    var r := SkipIvr(page, cur + 1, status);
    if r < |page| then Some(r) else None
  }

  /** The shown sections and the `window.sovendusStarted` flag. */
  datatype PageState = PageState(visible: seq<bool>, sovendusStarted: bool)

  /** The page after the event and whether `setupSovendus` was called. */
  datatype Completion = Completion(page: PageState, setupCalled: bool)

  /** The `sovendusStarted` flag after the check and whether `setupSovendus` was called. */
  datatype SovendusStart = SovendusStart(started: bool, setupCalled: bool)

  /**
   * `startSovendusIfNeeded`: call `setupSovendus` when the shown section is
   * "sovendus-section", the setup function exists, and it has not started yet.
   */
  function StartSovendusIfNeeded(started: bool, section: Element, setupAvailable: bool): (r: SovendusStart)
    ensures r.setupCalled <==> section.id == "sovendus-section" && setupAvailable && !started
    ensures r.started == (started || r.setupCalled)
  {
    if section.id == "sovendus-section" && setupAvailable && !started then SovendusStart(true, true)
    else SovendusStart(started, false)
  }

  /**
   * The `coregFlowCompleted` listener. `host` is the flow section holding the
   * coreg container (None when there is none): it is hidden and the next
   * section shown, and Sovendus may start; without a host or a next section
   * nothing changes.
   */
  function OnCoregFlowCompleted(page: seq<Element>, ps: PageState, host: Option<nat>, status: string, setupAvailable: bool): (r: Completion)
    requires |ps.visible| == |page|
    requires host.Some? ==> host.value < |page| && page[host.value].isFlowSection
    ensures |r.page.visible| == |page|
    ensures host.None? ==> r == Completion(ps, false)
    ensures host.Some? && NextSection(page, host.value, status).None? ==> r == Completion(ps, false)
    ensures host.Some? && NextSection(page, host.value, status).Some? ==>
      var next := NextSection(page, host.value, status).value;
      && !r.page.visible[host.value] && r.page.visible[next]
      && (forall i :: 0 <= i < |page| && i != host.value && i != next ==> r.page.visible[i] == ps.visible[i])
      && (r.setupCalled <==> page[next].id == "sovendus-section" && setupAvailable && !ps.sovendusStarted)
    ensures r.page.sovendusStarted == (ps.sovendusStarted || r.setupCalled)
  {
    if host.None? then Completion(ps, false)
    else
      var cur := host.value;
      var next := NextSection(page, cur, status);
      if next.None? then Completion(ps, false)
      else
        var sov := StartSovendusIfNeeded(ps.sovendusStarted, page[next.value], setupAvailable);
        Completion(PageState(ps.visible[cur := false][next.value := true], sov.started), sov.setupCalled)
  }

  /** Shown sections stay at most one across a completion. */
  lemma CompletionKeepsOneShown(page: seq<Element>, ps: PageState, host: Option<nat>, status: string, setupAvailable: bool, j: int)
    requires |ps.visible| == |page|
    requires host.Some? ==> host.value < |page| && page[host.value].isFlowSection
    requires forall i :: 0 <= i < |page| && IsSection(page[i]) && ps.visible[i] ==> i == j
    requires host.Some? ==> j == host.value
    ensures ShownSections(page, OnCoregFlowCompleted(page, ps, host, status, setupAvailable).page.visible) <= 1
  {
    var r := OnCoregFlowCompleted(page, ps, host, status, setupAvailable);
    if host.Some? && NextSection(page, host.value, status).Some? {
      ShownSectionsOfOne(page, r.page.visible, NextSection(page, host.value, status).value);
    } else {
      ShownSectionsOfOne(page, r.page.visible, j);
    }
  }

  /** A run of completion events, with the number of `setupSovendus` calls it made. */
  datatype Run = Run(page: PageState, setupCalls: nat)

  predicate HostsFit(page: seq<Element>, hosts: seq<Option<nat>>) {
    forall k :: 0 <= k < |hosts| && hosts[k].Some? ==> hosts[k].value < |page| && page[hosts[k].value].isFlowSection
  }

  /** Handle `coregFlowCompleted` once per entry of `hosts`. */
  function RunCompletions(page: seq<Element>, ps: PageState, hosts: seq<Option<nat>>, status: string, setupAvailable: bool): (r: Run)
    requires |ps.visible| == |page|
    requires HostsFit(page, hosts)
    ensures |r.page.visible| == |page|
    ensures r.setupCalls <= 1
    ensures ps.sovendusStarted ==> r.setupCalls == 0 && r.page.sovendusStarted
    ensures r.setupCalls == 1 ==> r.page.sovendusStarted
    decreases |hosts|
  {
    if |hosts| == 0 then Run(ps, 0)
    else
      var c := OnCoregFlowCompleted(page, ps, hosts[0], status, setupAvailable);
      var rest := RunCompletions(page, c.page, hosts[1..], status, setupAvailable);
      Run(rest.page, rest.setupCalls + (if c.setupCalled then 1 else 0))
  }
}
