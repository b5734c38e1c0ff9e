/**
 * Catalog preparation in the coreg renderer: flag normalisation, the stable
 * sort by `order`, grouping of multi-step campaigns by cid, and the section
 * sequence with its final marker.
 */
module Catalog {
  import opened Base

  /** A flag field as the CMS delivers it: a JSON boolean, string or number, or absent. */
  datatype Flag = Absent | Bool(b: bool) | Str(s: string) | Num(n: int)

  /** JavaScript truthiness of a flag value. */
  predicate Truthy(f: Flag) {
    match f
    case Absent => false
    case Bool(b) => b
    case Str(s) => s != ""
    case Num(n) => n != 0
  }

  /**
   * One answer option of a campaign: `answer_value`, and the `cid`/`sid` that
   * route it when `has_own_campaign` is truthy; `None` is a field the record lacks.
   */
  datatype AnswerOption = AnswerOption(caption: string, value: Option<string>, hasOwnCampaign: Flag,
                                       cid: Option<string>, sid: Option<string>)

  /** A campaign record as fetched, with both spellings of the long-form flag. */
  datatype RawCampaign = RawCampaign(
    id: string, cid: string, sid: string, order: Option<int>, answers: seq<AnswerOption>,
    hasCoregFlow: Flag, isShortformCoreg: Flag,
    requiresLongForm: Flag,      // `requiresLongForm`
    requiresLongFormAlt: Flag)   // `requires_long_form`

  /** Rewrites `requiresLongForm` to the boolean the flow reads afterwards. */
  function NormaliseLongForm(r: RawCampaign): (n: RawCampaign)
    ensures n.requiresLongForm.Bool?
    ensures n.requiresLongForm.b <==>
      r.requiresLongForm == Bool(true) || r.requiresLongForm == Str("true")
      || r.requiresLongFormAlt == Bool(true) || r.requiresLongFormAlt == Str("true")
    ensures n.(requiresLongForm := r.requiresLongForm) == r
  {
    var flag :=
      r.requiresLongForm == Bool(true) || r.requiresLongForm == Str("true")
      || r.requiresLongFormAlt == Bool(true) || r.requiresLongFormAlt == Str("true");
    r.(requiresLongForm := Bool(flag))
  }

  /** Normalising twice is normalising once. */
  lemma NormaliseIdempotent(r: RawCampaign)
    ensures NormaliseLongForm(NormaliseLongForm(r)) == NormaliseLongForm(r)
  {
  }

  /** A campaign as the flow uses it, with every flag decoded to a boolean. */
  datatype Campaign = Campaign(
    id: string, cid: string, sid: string, order: Option<int>, answers: seq<AnswerOption>,
    hasCoregFlow: bool, isShortformCoreg: bool, requiresLongForm: bool)

  /** The typed view of a normalised record; the other flags are read by truthiness. */
  function Decode(r: RawCampaign): (c: Campaign)
    ensures c.requiresLongForm <==>
      r.requiresLongForm in {Bool(true), Str("true")} || r.requiresLongFormAlt in {Bool(true), Str("true")}
    ensures c.hasCoregFlow == Truthy(r.hasCoregFlow) && c.isShortformCoreg == Truthy(r.isShortformCoreg)
    ensures c.cid == r.cid && c.sid == r.sid && c.id == r.id && c.order == r.order
  {
    var n := NormaliseLongForm(r);
    Campaign(n.id, n.cid, n.sid, n.order, n.answers, Truthy(n.hasCoregFlow), Truthy(n.isShortformCoreg),
             n.requiresLongForm.b)
  }

  // ---------------------------------------------------------------------------
  // Stable sort by `order`
  // ---------------------------------------------------------------------------

  /** `c.order || 0`. */
  function OrderKey(c: Campaign): int {
    c.order.GetOr(0)
  }

  predicate SortedByOrder(s: seq<Campaign>) {
    forall i, j :: 0 <= i < j < |s| ==> OrderKey(s[i]) <= OrderKey(s[j])
  }

  /** The campaigns of `s` whose order key is `k`, in their order in `s`. */
  function WithOrder(s: seq<Campaign>, k: int): seq<Campaign> {
    if |s| == 0 then []
    else WithOrder(s[..|s| - 1], k) + (if OrderKey(s[|s| - 1]) == k then [s[|s| - 1]] else [])
  }

  lemma WithOrderSnoc(s: seq<Campaign>, x: Campaign, k: int)
    ensures WithOrder(s + [x], k) == WithOrder(s, k) + (if OrderKey(x) == k then [x] else [])
  {
    assert (s + [x])[..|s|] == s;
  }

  /** Inserts `x` after every element whose key is at most its own. */
  function Insert(s: seq<Campaign>, x: Campaign): (r: seq<Campaign>)
    ensures |r| == |s| + 1
  {
    if |s| == 0 then [x]
    else if OrderKey(s[|s| - 1]) <= OrderKey(x) then s + [x]
    else Insert(s[..|s| - 1], x) + [s[|s| - 1]]
  }

  /** `[...campaigns].sort((a, b) => (a.order || 0) - (b.order || 0))`, a stable sort. */
  function SortByOrder(s: seq<Campaign>): (r: seq<Campaign>)
    ensures |r| == |s|
  {
    if |s| == 0 then [] else Insert(SortByOrder(s[..|s| - 1]), s[|s| - 1])
  }

  lemma {:induction false} InsertSorted(s: seq<Campaign>, x: Campaign)
    requires SortedByOrder(s)
    ensures SortedByOrder(Insert(s, x))
    ensures multiset(Insert(s, x)) == multiset(s) + multiset{x}
    decreases |s|
  {
    if |s| == 0 {
    } else if OrderKey(s[|s| - 1]) <= OrderKey(x) {
    } else {
      var init, last := s[..|s| - 1], s[|s| - 1];
      assert s == init + [last];
      InsertSorted(init, x);
      var r' := Insert(init, x);
      forall i | 0 <= i < |r'|
        ensures OrderKey(r'[i]) <= OrderKey(last)
      {
        assert r'[i] in multiset(r');
        if r'[i] != x {
          assert r'[i] in multiset(init);
          var j :| 0 <= j < |init| && init[j] == r'[i];
          assert OrderKey(s[j]) <= OrderKey(s[|s| - 1]);
        }
      }
    }
  }

  lemma {:induction false} InsertKeepsTies(s: seq<Campaign>, x: Campaign, k: int)
    requires SortedByOrder(s)
    ensures WithOrder(Insert(s, x), k) == WithOrder(s, k) + (if OrderKey(x) == k then [x] else [])
    decreases |s|
  {
    if |s| == 0 {
      WithOrderSnoc([], x, k);
      assert [] + [x] == [x];
    } else if OrderKey(s[|s| - 1]) <= OrderKey(x) {
      WithOrderSnoc(s, x, k);
    } else {
      var init, last := s[..|s| - 1], s[|s| - 1];
      InsertKeepsTies(init, x, k);
      WithOrderSnoc(Insert(init, x), last, k);
    }
  }

  /**
   * The sort is ascending by `order` (missing read as 0), a permutation, and
   * stable: the campaigns sharing an order value keep their fetch order.
   */
  lemma {:induction false} SortByOrderCorrect(s: seq<Campaign>)
    ensures SortedByOrder(SortByOrder(s))
    ensures multiset(SortByOrder(s)) == multiset(s)
    ensures forall k :: WithOrder(SortByOrder(s), k) == WithOrder(s, k)
    decreases |s|
  {
    if |s| > 0 {
      var init, last := s[..|s| - 1], s[|s| - 1];
      assert s == init + [last];
      SortByOrderCorrect(init);
      InsertSorted(SortByOrder(init), last);
      forall k ensures WithOrder(SortByOrder(s), k) == WithOrder(s, k) {
        InsertKeepsTies(SortByOrder(init), last, k);
      }
    }
  }

  // ---------------------------------------------------------------------------
  // Multi-step groups and the section sequence
  // ---------------------------------------------------------------------------

  predicate StrictlyIncreasing(ps: seq<nat>) {
    forall i, j :: 0 <= i < j < |ps| ==> ps[i] < ps[j]
  }

  /** Every recorded position is a position of a sequence of length `n`. */
  predicate ValidGroups(g: map<string, seq<nat>>, n: nat) {
    forall cid, k :: cid in g && 0 <= k < |g[cid]| ==> g[cid][k] < n
  }

  /** `grouped`: for each cid, the positions of its `has_coreg_flow` campaigns, in order. */
  function Groups(s: seq<Campaign>): (g: map<string, seq<nat>>)
    ensures ValidGroups(g, |s|)
    ensures forall cid :: cid in g ==> StrictlyIncreasing(g[cid]) && |g[cid]| > 0
  {
    if |s| == 0 then map[]
    else
      var g := Groups(s[..|s| - 1]);
      var c := s[|s| - 1];
      if c.hasCoregFlow then g[c.cid := Lookup(g, c.cid, []) + [|s| - 1]] else g
  }

  /** A cid has a group exactly when one of its campaigns has the multi-step flag. */
  lemma {:induction false} GroupsMembers(s: seq<Campaign>)
    ensures forall cid, p: nat :: cid in Groups(s) ==>
      (p in Groups(s)[cid] <==> p < |s| && s[p].hasCoregFlow && s[p].cid == cid)
    ensures forall i :: 0 <= i < |s| && s[i].hasCoregFlow ==> s[i].cid in Groups(s)
    decreases |s|
  {
    if |s| > 0 {
      var init, c, n := s[..|s| - 1], s[|s| - 1], |s|;
      GroupsMembers(init);
      var g0 := Groups(init);
      forall cid, p: nat | cid in Groups(s)
        ensures p in Groups(s)[cid] <==> p < |s| && s[p].hasCoregFlow && s[p].cid == cid
      {
        if p < n - 1 {
          assert s[p] == init[p];
        }
        if c.hasCoregFlow && cid == c.cid {
          assert Groups(s)[cid] == Lookup(g0, cid, []) + [n - 1];
          if cid in g0 {
            assert p in g0[cid] ==> p < n - 1;
          }
        } else {
          assert Groups(s)[cid] == g0[cid];
          assert p in g0[cid] ==> p < n - 1;
        }
      }
      forall i | 0 <= i < |s| && s[i].hasCoregFlow
        ensures s[i].cid in Groups(s)
      {
        if i < n - 1 {
          assert s[i] == init[i];
        }
      }
    } else {
      assert Groups(s) == map[];
    }
  }

  /** One rendered section: the campaign (step) it shows and its "final-coreg" marker. */
  datatype Section = Section(camp: Campaign, isFinal: bool)

  /**
   * The sections rendered for the campaign at position `i`: all steps of its
   * cid's group when it has one, otherwise the campaign itself. The marker is
   * set on the last campaign of the ordered list only when it is rendered at
   * the last iteration, the only moment its `isFinal` is already true.
   */
  function Block(ordered: seq<Campaign>, g: map<string, seq<nat>>, i: nat): seq<Section>
    requires ValidGroups(g, |ordered|) && i < |ordered|
  {
    var atLast := i == |ordered| - 1;
    if ordered[i].cid in g then
      var ps := g[ordered[i].cid];
      seq(|ps|, k requires 0 <= k < |ps| => Section(ordered[ps[k]], atLast && ps[k] == |ordered| - 1))
    else [Section(ordered[i], atLast)]
  }

  /** The sections rendered by the first `n` iterations. */
  function SectionsUpTo(ordered: seq<Campaign>, g: map<string, seq<nat>>, n: nat): seq<Section>
    requires ValidGroups(g, |ordered|) && n <= |ordered|
  {
    if n == 0 then [] else SectionsUpTo(ordered, g, n - 1) + Block(ordered, g, n - 1)
  }

  /** The section sequence for the ordered campaign list. */
  function BuildSections(ordered: seq<Campaign>): seq<Section> {
    SectionsUpTo(ordered, Groups(ordered), |ordered|)
  }

  /** The fetched records, decoded in fetch order. */
  function Decoded(raws: seq<RawCampaign>): (cs: seq<Campaign>)
    ensures |cs| == |raws| && forall i :: 0 <= i < |raws| ==> cs[i] == Decode(raws[i])
  {
    seq(|raws|, i requires 0 <= i < |raws| => Decode(raws[i]))
  }

  /**
   * The whole preparation: decode, sort, group, render. Every section shows a
   * fetched campaign, and the sections are those the reference predicts for
   * the sorted list.
   */
  function Prepare(raws: seq<RawCampaign>): (r: seq<Section>)
    ensures Shows(r, ExpectedUpTo(SortByOrder(Decoded(raws)), |raws|))
    ensures forall j :: 0 <= j < |r| ==> r[j].camp in Decoded(raws)
  {
    var ordered := SortByOrder(Decoded(raws));
    SortByOrderCorrect(Decoded(raws));
    BuildSectionsShow(ordered);
    var r := BuildSections(ordered);
    assert forall j :: 0 <= j < |r| ==> r[j].camp in multiset(ordered);
    r
  }

  // ---------------------------------------------------------------------------
  // What the sections show, against a reference by filtering
  // ---------------------------------------------------------------------------

  /** The multi-step campaigns of `s` with this cid, in their order in `s`. */
  function FlowSteps(s: seq<Campaign>, cid: string): seq<Campaign> {
    if |s| == 0 then []
    else
      var c := s[|s| - 1];
      FlowSteps(s[..|s| - 1], cid) + (if c.hasCoregFlow && c.cid == cid then [c] else [])
  }

  /** Section k shows campaign k of `cs`, and there are as many of each. */
  predicate Shows(secs: seq<Section>, cs: seq<Campaign>) {
    |secs| == |cs| && forall k :: 0 <= k < |secs| ==> secs[k].camp == cs[k]
  }

  /**
   * What iteration `i` should render: every multi-step campaign sharing the
   * cid of `ordered[i]`, in order, or `ordered[i]` alone when there is none.
   */
  function Expected(ordered: seq<Campaign>, i: nat): seq<Campaign>
    requires i < |ordered|
  {
    var steps := FlowSteps(ordered, ordered[i].cid);
    if |steps| > 0 then steps else [ordered[i]]
  }

  /** What the first `n` iterations should render. */
  function ExpectedUpTo(ordered: seq<Campaign>, n: nat): seq<Campaign>
    requires n <= |ordered|
  {
    if n == 0 then [] else ExpectedUpTo(ordered, n - 1) + Expected(ordered, n - 1)
  }

  /** A cid's group lists exactly the positions of its multi-step campaigns, in order. */
  lemma {:induction false} GroupsAreFlowSteps(s: seq<Campaign>, cid: string)
    ensures cid in Groups(s) <==> |FlowSteps(s, cid)| > 0
    ensures cid in Groups(s) ==>
      && |Groups(s)[cid]| == |FlowSteps(s, cid)|
      && forall k :: 0 <= k < |Groups(s)[cid]| ==> s[Groups(s)[cid][k]] == FlowSteps(s, cid)[k]
    decreases |s|
  {
    if |s| > 0 {
      var init, c, n := s[..|s| - 1], s[|s| - 1], |s|;
      GroupsAreFlowSteps(init, cid);
      var g0 := Groups(init);
      if c.hasCoregFlow && c.cid == cid {
        var ps := Groups(s)[cid];
        assert ps == Lookup(g0, cid, []) + [n - 1];
        assert FlowSteps(s, cid) == FlowSteps(init, cid) + [c];
        forall k | 0 <= k < |ps|
          ensures s[ps[k]] == FlowSteps(s, cid)[k]
        {
          if k < |ps| - 1 {
            assert ps[k] == g0[cid][k] && ps[k] < n - 1;
          }
        }
      } else if cid in g0 {
        assert Groups(s)[cid] == g0[cid];
        forall k | 0 <= k < |g0[cid]|
          ensures s[g0[cid][k]] == init[g0[cid][k]]
        {
          assert g0[cid][k] < n - 1;
        }
      }
    }
  }

  /** Iteration `i` renders what the reference predicts. */
  lemma BlockShows(ordered: seq<Campaign>, i: nat)
    requires i < |ordered|
    ensures Shows(Block(ordered, Groups(ordered), i), Expected(ordered, i))
  {
    GroupsAreFlowSteps(ordered, ordered[i].cid);
  }

  lemma ShowsAppend(a: seq<Section>, b: seq<Section>, ca: seq<Campaign>, cb: seq<Campaign>)
    requires Shows(a, ca) && Shows(b, cb)
    ensures Shows(a + b, ca + cb)
  {
    forall k | 0 <= k < |a + b|
      ensures (a + b)[k].camp == (ca + cb)[k]
    {
      if k >= |a| {
        assert (a + b)[k] == b[k - |a|] && (ca + cb)[k] == cb[k - |a|];
      }
    }
  }

  /** Every iteration renders what the reference predicts. */
  predicate BlocksShow(ordered: seq<Campaign>, g: map<string, seq<nat>>)
    requires ValidGroups(g, |ordered|)
  {
    forall i :: 0 <= i < |ordered| ==> Shows(Block(ordered, g, i), Expected(ordered, i))
  }

  lemma {:induction false} SectionsUpToShow(ordered: seq<Campaign>, g: map<string, seq<nat>>, n: nat)
    requires ValidGroups(g, |ordered|) && BlocksShow(ordered, g) && n <= |ordered|
    ensures Shows(SectionsUpTo(ordered, g, n), ExpectedUpTo(ordered, n))
    decreases n
  {
    if n > 0 {
      SectionsUpToShow(ordered, g, n - 1);
      SectionsUpToShowStep(ordered, g, n);
    }
  }

  /** One more iteration keeps the sections and the reference in step. */
  lemma SectionsUpToShowStep(ordered: seq<Campaign>, g: map<string, seq<nat>>, n: nat)
    requires ValidGroups(g, |ordered|) && 0 < n <= |ordered|
    requires Shows(SectionsUpTo(ordered, g, n - 1), ExpectedUpTo(ordered, n - 1))
    requires Shows(Block(ordered, g, n - 1), Expected(ordered, n - 1))
    ensures Shows(SectionsUpTo(ordered, g, n), ExpectedUpTo(ordered, n))
  {
    ShowsAppend(SectionsUpTo(ordered, g, n - 1), Block(ordered, g, n - 1), ExpectedUpTo(ordered, n - 1), Expected(ordered, n - 1));
  }

  /** Every section rendered by the first `n` iterations shows an ordered campaign. */
  lemma {:induction false} SectionsInOrdered(ordered: seq<Campaign>, g: map<string, seq<nat>>, n: nat)
    requires ValidGroups(g, |ordered|) && n <= |ordered|
    ensures forall j :: 0 <= j < |SectionsUpTo(ordered, g, n)| ==> SectionsUpTo(ordered, g, n)[j].camp in ordered
    decreases n
  {
    if n > 0 {
      SectionsInOrdered(ordered, g, n - 1);
    }
  }

  /**
   * The sections show, for each ordered campaign in turn, all multi-step
   * campaigns of its cid when it has any (so a step is shown once per ordered
   * campaign with its cid), else the campaign itself; each is an ordered campaign.
   */
  lemma BuildSectionsShow(ordered: seq<Campaign>)
    ensures Shows(BuildSections(ordered), ExpectedUpTo(ordered, |ordered|))
    ensures forall j :: 0 <= j < |BuildSections(ordered)| ==> BuildSections(ordered)[j].camp in ordered
  {
    var g := Groups(ordered);
    forall i | 0 <= i < |ordered|
      ensures Shows(Block(ordered, g, i), Expected(ordered, i))
    {
      BlockShows(ordered, i);
    }
    SectionsUpToShow(ordered, g, |ordered|);
    SectionsInOrdered(ordered, g, |ordered|);
  }

  lemma {:induction false} NoFinalBeforeLastIteration(ordered: seq<Campaign>, g: map<string, seq<nat>>, n: nat)
    requires ValidGroups(g, |ordered|) && n < |ordered|
    ensures forall j :: 0 <= j < |SectionsUpTo(ordered, g, n)| ==> !SectionsUpTo(ordered, g, n)[j].isFinal
  {
    if n > 0 {
      NoFinalBeforeLastIteration(ordered, g, n - 1);
    }
  }

  /** Within the last iteration's block only the last section can be final, and it shows the last campaign. */
  lemma LastBlockFinal(ordered: seq<Campaign>)
    requires |ordered| > 0
    ensures var blk := Block(ordered, Groups(ordered), |ordered| - 1);
      forall k :: 0 <= k < |blk| && blk[k].isFinal ==> k == |blk| - 1 && blk[k].camp == ordered[|ordered| - 1]
  {
    var g, n := Groups(ordered), |ordered|;
    var blk := Block(ordered, g, n - 1);
    forall k | 0 <= k < |blk| && blk[k].isFinal
      ensures k == |blk| - 1 && blk[k].camp == ordered[n - 1]
    {
      if ordered[n - 1].cid in g {
        var ps := g[ordered[n - 1].cid];
        assert ps[k] == n - 1;
      }
    }
  }

  /**
   * Only the very last section can carry the final marker, and it shows the
   * last campaign of the ordered list.
   */
  lemma FinalOnlyAtEnd(ordered: seq<Campaign>)
    ensures var secs := BuildSections(ordered);
      forall j :: 0 <= j < |secs| && secs[j].isFinal ==> j == |secs| - 1 && secs[j].camp == ordered[|ordered| - 1]
  {
    var secs := BuildSections(ordered);
    if |ordered| > 0 {
      var g, n := Groups(ordered), |ordered|;
      NoFinalBeforeLastIteration(ordered, g, n - 1);
      LastBlockFinal(ordered);
      FinalOnlyInLastPart(SectionsUpTo(ordered, g, n - 1), Block(ordered, g, n - 1), ordered[n - 1]);
    }
  }

  /** Appending a block whose only final section is its last to sections with none. */
  lemma FinalOnlyInLastPart(pre: seq<Section>, blk: seq<Section>, c: Campaign)
    requires forall j :: 0 <= j < |pre| ==> !pre[j].isFinal
    requires forall k :: 0 <= k < |blk| && blk[k].isFinal ==> k == |blk| - 1 && blk[k].camp == c
    ensures var secs := pre + blk;
      forall j :: 0 <= j < |secs| && secs[j].isFinal ==> j == |secs| - 1 && secs[j].camp == c
  {
    var secs := pre + blk;
    assert forall j :: 0 <= j < |pre| ==> secs[j] == pre[j];
    assert forall j :: |pre| <= j < |secs| ==> secs[j] == blk[j - |pre|];
  }

  /**
   * The last section is final whenever the last campaign is rendered by its own
   * iteration: it is not grouped under a cid, or it is itself a step of its group.
   */
  lemma LastSectionFinal(ordered: seq<Campaign>)
    requires |ordered| > 0
    requires var last := ordered[|ordered| - 1]; last.hasCoregFlow || last.cid !in Groups(ordered)
    ensures |BuildSections(ordered)| > 0 && BuildSections(ordered)[|BuildSections(ordered)| - 1].isFinal
  {
    var g, n := Groups(ordered), |ordered|;
    var pre, blk := SectionsUpTo(ordered, g, n - 1), Block(ordered, g, n - 1);
    assert BuildSections(ordered) == pre + blk;
    var last := ordered[n - 1];
    if last.cid in g {
      GroupsMembers(ordered);
      var ps := g[last.cid];
      assert n - 1 in ps;
      var k :| 0 <= k < |ps| && ps[k] == n - 1;
      assert blk[|blk| - 1].isFinal;
    }
  }
}
