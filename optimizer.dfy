/** The three-gate router (`optimize`, app.py:321-388): every catalog entry
    is scored, gate 1 drops the entries that are too stale or too weak, gate 2
    ranks the rest by utility per dollar, and gate 3 walks that ranking
    greedily under a budget, refusing redundant pairs and repeated tiers and
    stopping once enough sources are held. The naive baseline (the three most
    authoritative entries) gives the savings figures. */
module Optimizer {
  import opened Basics
  import opened Similarity
  import opened Signals
  import opened Scorer
  import opened Ranking

  /** The spending cap per query, in dollars. */
  const Budget: real := 12.0
  /** The price floor that keeps free sources from dividing by zero. */
  const PriceFloor: real := 0.01
  /** The one tier that may repeat without limit. */
  const FreeTier: string := "free"

  /** `REDUNDANT`: unordered pairs of source names that say the same thing. */
  type Pairs = seq<(string, string)>

  // ---------------------------------------------------------------------
  // Scoring the catalog (app.py:325)
  // ---------------------------------------------------------------------

  function ScoreAll(sig: SignalBundle, catalog: seq<Source>, boosts: BoostTable, sqrt: real -> real)
    : (r: seq<ScoredSource>)
    requires PositiveRoot(sqrt)
    ensures |r| == |catalog|
    ensures forall k :: 0 <= k < |r| ==> r[k] == ScoreSource(sig, catalog[k], boosts, sqrt)
    ensures forall k :: 0 <= k < |r| ==> r[k].src == catalog[k]
  {
    seq(|catalog|, k requires 0 <= k < |catalog| => ScoreSource(sig, catalog[k], boosts, sqrt))
  }

  function PriceOf(s: ScoredSource): real { s.src.price }
  function UtilityOf(s: ScoredSource): real { s.utility }
  function NameOf(s: ScoredSource): string { s.src.name }

  // ---------------------------------------------------------------------
  // Gate 1: eligibility (app.py:328-338)
  // ---------------------------------------------------------------------

  datatype IneligibleReason = TooStale | LowUtility
  datatype Ineligible = Ineligible(source: ScoredSource, reason: IneligibleReason)

  /** A source passes gate 1 when its staleness bound is within the window
      and its utility is at most 0.12 below the quality threshold. */
  predicate Eligible(s: ScoredSource, maxH: int, threshold: real) {
    s.src.freshH <= maxH && s.utility >= threshold - 0.12
  }

  /** The reasons gate 1 collects for one source, staleness first. */
  function GateReasons(s: ScoredSource, maxH: int, threshold: real): (rs: seq<IneligibleReason>)
    ensures rs == [] <==> Eligible(s, maxH, threshold)
    ensures TooStale in rs <==> s.src.freshH > maxH
    ensures LowUtility in rs <==> s.utility < threshold - 0.12
    ensures s.src.freshH > maxH ==> rs[0] == TooStale
    ensures rs != [] && s.src.freshH <= maxH ==> rs[0] == LowUtility
  {
    (if s.src.freshH > maxH then [TooStale] else [])
    + (if s.utility < threshold - 0.12 then [LowUtility] else [])
  }

  /** The sources gate 1 keeps, in catalog order. */
  function Passed(scored: seq<ScoredSource>, maxH: int, threshold: real): (r: seq<ScoredSource>)
    ensures IsSubseq(r, scored)
    ensures forall s :: s in r ==> Eligible(s, maxH, threshold)
    ensures forall s :: s in scored && Eligible(s, maxH, threshold) ==> s in r
    decreases |scored|
  {
    if scored == [] then []
    else
      var init, s := scored[..|scored| - 1], scored[|scored| - 1];
      assert scored == init + [s];
      var p := Passed(init, maxH, threshold);
      if Eligible(s, maxH, threshold) then
        SubseqAppendBoth(p, init, s);
        p + [s]
      else
        SubseqAppendRight(p, init, s);
        p
  }

  /** The sources gate 1 drops, each with the first reason it found. */
  function Failed(scored: seq<ScoredSource>, maxH: int, threshold: real): (r: seq<Ineligible>)
    ensures forall x :: x in r ==>
      x.source in scored && !Eligible(x.source, maxH, threshold)
      && x.reason == GateReasons(x.source, maxH, threshold)[0]
    ensures forall s :: s in scored && !Eligible(s, maxH, threshold) ==>
      Ineligible(s, GateReasons(s, maxH, threshold)[0]) in r
    ensures IsSubseq(Dropped(r), scored)
    decreases |scored|
  {
    if scored == [] then []
    else
      var init, s := scored[..|scored| - 1], scored[|scored| - 1];
      assert scored == init + [s];
      var f := Failed(init, maxH, threshold);
      if Eligible(s, maxH, threshold) then
        SubseqAppendRight(Dropped(f), init, s);
        f
      else
        var x := Ineligible(s, GateReasons(s, maxH, threshold)[0]);
        assert Dropped(f + [x]) == Dropped(f) + [s];
        SubseqAppendBoth(Dropped(f), init, s);
        f + [x]
  }

  method Gate(scored: seq<ScoredSource>, maxH: int, threshold: real)
    returns (eligible: seq<ScoredSource>, ineligible: seq<Ineligible>)
    ensures eligible == Passed(scored, maxH, threshold)
    ensures ineligible == Failed(scored, maxH, threshold)
  {
    eligible, ineligible := [], [];
    for i := 0 to |scored|
      invariant eligible == Passed(scored[..i], maxH, threshold)
      invariant ineligible == Failed(scored[..i], maxH, threshold)
    {
      var s := scored[i];
      var reasons: seq<IneligibleReason> := [];
      if s.src.freshH > maxH {
        reasons := reasons + [TooStale];
      }
      if s.utility < threshold - 0.12 {
        reasons := reasons + [LowUtility];
      }
      assert reasons == GateReasons(s, maxH, threshold);
      assert scored[..i + 1][..i] == scored[..i];
      if reasons != [] {
        ineligible := ineligible + [Ineligible(s, reasons[0])];
      } else {
        eligible := eligible + [s];
      }
    }
    assert scored[..|scored|] == scored;
  }

  // ---------------------------------------------------------------------
  // Gate 2: value ranking (app.py:341)
  // ---------------------------------------------------------------------

  /** Utility per dollar, with the price floored at one cent. */
  function ValueRatio(s: ScoredSource): real {
    s.utility / Max(s.src.price, PriceFloor)
  }

  function Ranked(eligible: seq<ScoredSource>): (r: seq<ScoredSource>)
    ensures multiset(r) == multiset(eligible)
    ensures SortedDesc(r, ValueRatio)
  {
    SortDesc(eligible, ValueRatio)
  }

  // ---------------------------------------------------------------------
  // Gate 3: greedy selection with diversity (app.py:344-369)
  // ---------------------------------------------------------------------

  datatype RejectReason = OverBudget | Redundant | DupTier
  datatype Rejected = Rejected(source: ScoredSource, reason: RejectReason)

  /** The state of the greedy pass: what is held, what was turned away,
      the money spent, and whether the pass has stopped. */
  datatype Selection = Selection(
    selected: seq<ScoredSource>,
    rejected: seq<Rejected>,
    spent: real,
    stopped: bool)

  /** The number of sources after which the pass stops. */
  function Cap(minSources: int): (c: int)
    ensures c >= 2 && c >= minSources + 1
    ensures c == 2 || c == minSources + 1
  {
    if minSources + 1 > 2 then minSources + 1 else 2
  }

  /** `a` and `b` are listed together in the redundancy table, in either
      order. */
  predicate RedundantPair(a: string, b: string, pairs: Pairs) {
    exists k :: 0 <= k < |pairs| &&
      ((a == pairs[k].0 && b == pairs[k].1) || (a == pairs[k].1 && b == pairs[k].0))
  }

  /** The redundancy test the pass applies: some pair has `name` on one side
      and an already held name on the other. */
  predicate Clashes(name: string, used: set<string>, pairs: Pairs) {
    exists k :: 0 <= k < |pairs| &&
      ((name == pairs[k].0 && pairs[k].1 in used) || (name == pairs[k].1 && pairs[k].0 in used))
  }

  function NameSet(sel: seq<ScoredSource>): set<string> {
    set s | s in sel :: s.src.name
  }

  function TierSet(sel: seq<ScoredSource>): set<string> {
    set s | s in sel :: s.src.tier
  }

  lemma NamesAndTiersGrow(sel: seq<ScoredSource>, c: ScoredSource)
    ensures NameSet(sel + [c]) == NameSet(sel) + {c.src.name}
    ensures TierSet(sel + [c]) == TierSet(sel) + {c.src.tier}
  {
    assert forall s :: s in sel + [c] <==> s in sel || s == c;
  }

  /** One step of the pass over the next candidate `c`: a stopped pass
      ignores it; otherwise `c` is either taken, paying its price within the
      budget, or turned away with one reason, and nothing else changes. */
  function Consider(st: Selection, c: ScoredSource, minSources: int, pairs: Pairs): (r: Selection)
    ensures st.stopped ==> r == st
    ensures !st.stopped ==>
      || (&& r.selected == st.selected + [c] && r.rejected == st.rejected
          && r.spent == st.spent + c.src.price <= Budget)
      || (&& r.selected == st.selected && r.spent == st.spent && !r.stopped
          && |r.rejected| == |st.rejected| + 1 && r.rejected[..|st.rejected|] == st.rejected
          && r.rejected[|st.rejected|].source == c)
    ensures !st.stopped ==> (r.rejected == st.rejected + [Rejected(c, OverBudget)]
                             <==> st.spent + c.src.price > Budget)
  {
    if st.stopped then st
    else if st.spent + c.src.price > Budget then
      st.(rejected := st.rejected + [Rejected(c, OverBudget)])
    else if Clashes(c.src.name, NameSet(st.selected), pairs) then
      st.(rejected := st.rejected + [Rejected(c, Redundant)])
    else if c.src.tier != FreeTier && c.src.tier in TierSet(st.selected)
         && |st.selected| >= minSources then
      st.(rejected := st.rejected + [Rejected(c, DupTier)])
    else
      var sel := st.selected + [c];
      Selection(sel, st.rejected, st.spent + c.src.price, |sel| >= Cap(minSources))
  }

  /** The pass over a ranked list, as the fold of `Consider` from an empty
      selection. */
  function Greedy(ranked: seq<ScoredSource>, minSources: int, pairs: Pairs): (r: Selection)
    ensures forall x :: x in r.selected ==> x in ranked
    ensures forall x :: x in r.rejected ==> x.source in ranked
    decreases |ranked|
  {
    if ranked == [] then Selection([], [], 0.0, false)
    else Consider(Greedy(ranked[..|ranked| - 1], minSources, pairs), ranked[|ranked| - 1], minSources, pairs)
  }

  /** No two held sources form a redundant pair. */
  ghost predicate NoRedundantPair(sel: seq<ScoredSource>, pairs: Pairs) {
    forall i, j :: 0 <= i < j < |sel| ==> !RedundantPair(sel[i].src.name, sel[j].src.name, pairs)
  }

  /** Every non-free source taken once `minSources` are held has a tier no
      earlier source has. */
  ghost predicate TiersSpread(sel: seq<ScoredSource>, minSources: int) {
    forall i, j :: 0 <= i < j < |sel| && j >= minSources && sel[j].src.tier != FreeTier ==>
      sel[i].src.tier != sel[j].src.tier
  }

  /** What the pass keeps true of its state after reading `ranked`. */
  ghost predicate Consistent(st: Selection, ranked: seq<ScoredSource>, minSources: int, pairs: Pairs) {
    && st.spent == Total(st.selected, PriceOf) <= Budget
    && NoRedundantPair(st.selected, pairs)
    && TiersSpread(st.selected, minSources)
    && |st.selected| <= Cap(minSources)
    && (st.stopped <==> |st.selected| == Cap(minSources))
    && IsSubseq(st.selected, ranked)
    && (forall r :: r in st.rejected ==> r.source in ranked)
    && |st.selected| + |st.rejected| <= |ranked|
    && (!st.stopped ==> |st.selected| + |st.rejected| == |ranked|)
  }

  lemma PairClashes(held: string, name: string, used: set<string>, pairs: Pairs)
    requires RedundantPair(held, name, pairs) && held in used
    ensures Clashes(name, used, pairs)
  {
    var k :| 0 <= k < |pairs| &&
      ((held == pairs[k].0 && name == pairs[k].1) || (held == pairs[k].1 && name == pairs[k].0));
  }

  lemma AcceptKeepsPairs(sel: seq<ScoredSource>, c: ScoredSource, pairs: Pairs)
    requires NoRedundantPair(sel, pairs)
    requires !Clashes(c.src.name, NameSet(sel), pairs)
    ensures NoRedundantPair(sel + [c], pairs)
  {
    var sel' := sel + [c];
    forall i, j | 0 <= i < j < |sel'|
      ensures !RedundantPair(sel'[i].src.name, sel'[j].src.name, pairs)
    {
      if j == |sel| {
        assert sel'[i] == sel[i] && sel[i] in sel;
        if RedundantPair(sel[i].src.name, c.src.name, pairs) {
          PairClashes(sel[i].src.name, c.src.name, NameSet(sel), pairs);
        }
      } else {
        assert sel'[i] == sel[i] && sel'[j] == sel[j];
      }
    }
  }

  lemma AcceptKeepsTiers(sel: seq<ScoredSource>, c: ScoredSource, minSources: int)
    requires TiersSpread(sel, minSources)
    requires !(c.src.tier != FreeTier && c.src.tier in TierSet(sel) && |sel| >= minSources)
    ensures TiersSpread(sel + [c], minSources)
  {
    var sel' := sel + [c];
    forall i, j | 0 <= i < j < |sel'| && j >= minSources && sel'[j].src.tier != FreeTier
      ensures sel'[i].src.tier != sel'[j].src.tier
    {
      if j == |sel| {
        assert sel'[i] == sel[i] && sel[i] in sel;
      } else {
        assert sel'[i] == sel[i] && sel'[j] == sel[j];
      }
    }
  }

  lemma RejectKeeps(st: Selection, ranked: seq<ScoredSource>, c: ScoredSource, reason: RejectReason,
                    minSources: int, pairs: Pairs)
    requires Consistent(st, ranked, minSources, pairs)
    ensures Consistent(st.(rejected := st.rejected + [Rejected(c, reason)]), ranked + [c], minSources, pairs)
  {
    SubseqAppendRight(st.selected, ranked, c);
  }

  lemma StoppedKeeps(st: Selection, ranked: seq<ScoredSource>, c: ScoredSource, minSources: int, pairs: Pairs)
    requires Consistent(st, ranked, minSources, pairs) && st.stopped
    ensures Consistent(st, ranked + [c], minSources, pairs)
  {
    SubseqAppendRight(st.selected, ranked, c);
  }

  lemma AcceptKeeps(st: Selection, ranked: seq<ScoredSource>, c: ScoredSource, minSources: int, pairs: Pairs)
    requires Consistent(st, ranked, minSources, pairs) && !st.stopped
    requires st.spent + c.src.price <= Budget
    requires !Clashes(c.src.name, NameSet(st.selected), pairs)
    requires !(c.src.tier != FreeTier && c.src.tier in TierSet(st.selected) && |st.selected| >= minSources)
    ensures var sel := st.selected + [c];
      Consistent(Selection(sel, st.rejected, st.spent + c.src.price, |sel| >= Cap(minSources)),
                 ranked + [c], minSources, pairs)
  {
    var sel := st.selected;
    assert (sel + [c])[..|sel|] == sel;
    SubseqAppendBoth(sel, ranked, c);
    AcceptKeepsPairs(sel, c, pairs);
    AcceptKeepsTiers(sel, c, minSources);
  }

  lemma ConsiderKeeps(st: Selection, ranked: seq<ScoredSource>, c: ScoredSource, minSources: int, pairs: Pairs)
    requires Consistent(st, ranked, minSources, pairs)
    ensures Consistent(Consider(st, c, minSources, pairs), ranked + [c], minSources, pairs)
  {
    var next := Consider(st, c, minSources, pairs);
    if st.stopped {
      assert next == st;
      StoppedKeeps(st, ranked, c, minSources, pairs);
    } else if st.spent + c.src.price > Budget {
      assert next == st.(rejected := st.rejected + [Rejected(c, OverBudget)]);
      RejectKeeps(st, ranked, c, OverBudget, minSources, pairs);
    } else if Clashes(c.src.name, NameSet(st.selected), pairs) {
      assert next == st.(rejected := st.rejected + [Rejected(c, Redundant)]);
      RejectKeeps(st, ranked, c, Redundant, minSources, pairs);
    } else if c.src.tier != FreeTier && c.src.tier in TierSet(st.selected) && |st.selected| >= minSources {
      assert next == st.(rejected := st.rejected + [Rejected(c, DupTier)]);
      RejectKeeps(st, ranked, c, DupTier, minSources, pairs);
    } else {
      AcceptKeeps(st, ranked, c, minSources, pairs);
    }
  }

  lemma {:induction false} GreedyConsistent(ranked: seq<ScoredSource>, minSources: int, pairs: Pairs)
    ensures Consistent(Greedy(ranked, minSources, pairs), ranked, minSources, pairs)
    decreases |ranked|
  {
    if ranked == [] {
      assert IsSubseq<ScoredSource>([], []);
    } else {
      var init, c := ranked[..|ranked| - 1], ranked[|ranked| - 1];
      GreedyConsistent(init, minSources, pairs);
      assert init + [c] == ranked;
      ConsiderKeeps(Greedy(init, minSources, pairs), init, c, minSources, pairs);
    }
  }

  /** The candidates turned away, without their reasons, in the order the
      pass met them (the order `rejected[:4]` reports from). */
  function RejSources(rs: seq<Rejected>): (r: seq<ScoredSource>)
    ensures |r| == |rs| && forall k :: 0 <= k < |rs| ==> r[k] == rs[k].source
  {
    seq(|rs|, k requires 0 <= k < |rs| => rs[k].source)
  }

  /** One step of the pass accounts for its candidate exactly once: it is
      appended either to the selection or to the rejections. */
  lemma ConsiderAccounts(st: Selection, c: ScoredSource, minSources: int, pairs: Pairs)
    requires !st.stopped
    ensures var next := Consider(st, c, minSources, pairs);
      || (next.selected == st.selected + [c] && RejSources(next.rejected) == RejSources(st.rejected))
      || (next.selected == st.selected && RejSources(next.rejected) == RejSources(st.rejected) + [c])
  {
    var next := Consider(st, c, minSources, pairs);
    if next.selected != st.selected + [c] {
      assert next.rejected == next.rejected[..|st.rejected|] + [next.rejected[|st.rejected|]];
      assert RejSources(next.rejected) == RejSources(st.rejected) + [c];
    }
  }

  /** The rejections are listed in ranked order, and a pass that never
      stopped has placed every candidate exactly once: the held and the
      rejected sources together are the ranked list as a multiset. */
  lemma {:induction false} GreedyAccounts(ranked: seq<ScoredSource>, minSources: int, pairs: Pairs)
    ensures var g := Greedy(ranked, minSources, pairs);
      && IsSubseq(RejSources(g.rejected), ranked)
      && multiset(g.selected) + multiset(RejSources(g.rejected)) <= multiset(ranked)
      && (!g.stopped ==> multiset(g.selected) + multiset(RejSources(g.rejected)) == multiset(ranked))
    decreases |ranked|
  {
    var g := Greedy(ranked, minSources, pairs);
    if ranked == [] {
      assert RejSources(g.rejected) == [];
    } else {
      var init, c := ranked[..|ranked| - 1], ranked[|ranked| - 1];
      assert init + [c] == ranked;
      GreedyAccounts(init, minSources, pairs);
      var g0 := Greedy(init, minSources, pairs);
      assert g == Consider(g0, c, minSources, pairs);
      var rs0 := RejSources(g0.rejected);
      if g0.stopped {
        SubseqAppendRight(rs0, init, c);
      } else {
        ConsiderAccounts(g0, c, minSources, pairs);
        if g.selected == g0.selected + [c] {
          SubseqAppendRight(rs0, init, c);
          assert multiset(g.selected) == multiset(g0.selected) + multiset{c};
        } else {
          SubseqAppendBoth(rs0, init, c);
          assert multiset(RejSources(g.rejected)) == multiset(rs0) + multiset{c};
        }
      }
    }
  }

  /** The pass over one more candidate is one more `Consider` step. */
  lemma GreedyNext(ranked: seq<ScoredSource>, i: nat, minSources: int, pairs: Pairs)
    requires i < |ranked|
    ensures Greedy(ranked[..i + 1], minSources, pairs)
      == Consider(Greedy(ranked[..i], minSources, pairs), ranked[i], minSources, pairs)
  {
    assert ranked[..i + 1][..i] == ranked[..i];
  }

  /** One more candidate, read against an unstopped state, case by case. */
  lemma GreedyStep(ranked: seq<ScoredSource>, i: nat, minSources: int, pairs: Pairs,
                   selected: seq<ScoredSource>, rejected: seq<Rejected>, spent: real)
    requires i < |ranked|
    requires Greedy(ranked[..i], minSources, pairs) == Selection(selected, rejected, spent, false)
    ensures var c := ranked[i];
      Greedy(ranked[..i + 1], minSources, pairs) ==
        if spent + c.src.price > Budget then
          Selection(selected, rejected + [Rejected(c, OverBudget)], spent, false)
        else if Clashes(c.src.name, NameSet(selected), pairs) then
          Selection(selected, rejected + [Rejected(c, Redundant)], spent, false)
        else if c.src.tier != FreeTier && c.src.tier in TierSet(selected) && |selected| >= minSources then
          Selection(selected, rejected + [Rejected(c, DupTier)], spent, false)
        else
          Selection(selected + [c], rejected, spent + c.src.price, |selected + [c]| >= Cap(minSources))
  {
    GreedyNext(ranked, i, minSources, pairs);
  }

  /** Once the pass has stopped, later candidates change nothing. */
  lemma {:induction false} GreedyStopped(ranked: seq<ScoredSource>, n: nat, minSources: int, pairs: Pairs)
    requires n <= |ranked|
    requires Greedy(ranked[..n], minSources, pairs).stopped
    ensures Greedy(ranked, minSources, pairs) == Greedy(ranked[..n], minSources, pairs)
    decreases |ranked|
  {
    if n < |ranked| {
      var init := ranked[..|ranked| - 1];
      assert init[..n] == ranked[..n];
      GreedyStopped(init, n, minSources, pairs);
    } else {
      assert ranked[..n] == ranked;
    }
  }

  /** The reason recorded for a turned-away candidate, checked against a
      set of held sources. */
  predicate Justified(r: Rejected, sel: seq<ScoredSource>, minSources: int, pairs: Pairs) {
    match r.reason
    case OverBudget => Total(sel, PriceOf) + r.source.src.price > Budget
    case Redundant => Clashes(r.source.src.name, NameSet(sel), pairs)
    case DupTier =>
      r.source.src.tier != FreeTier && r.source.src.tier in TierSet(sel) && |sel| >= minSources
  }

  lemma JustifiedGrows(r: Rejected, sel: seq<ScoredSource>, c: ScoredSource, minSources: int, pairs: Pairs)
    requires Justified(r, sel, minSources, pairs) && c.src.price >= 0.0
    ensures Justified(r, sel + [c], minSources, pairs)
  {
    assert (sel + [c])[..|sel|] == sel;
    assert NameSet(sel) <= NameSet(sel + [c]);
    assert TierSet(sel) <= TierSet(sel + [c]);
    if r.reason == Redundant {
      var k :| 0 <= k < |pairs| &&
        ((r.source.src.name == pairs[k].0 && pairs[k].1 in NameSet(sel))
         || (r.source.src.name == pairs[k].1 && pairs[k].0 in NameSet(sel)));
    }
  }

  /** With no negative prices every candidate the pass turned away still
      has the recorded reason against the final selection: the budget is
      exceeded, a held source is redundant with it, or its tier is held and
      the minimum is already met. */
  lemma {:induction false} GreedyJustified(ranked: seq<ScoredSource>, minSources: int, pairs: Pairs)
    requires forall c :: c in ranked ==> c.src.price >= 0.0
    ensures forall r :: r in Greedy(ranked, minSources, pairs).rejected ==>
      Justified(r, Greedy(ranked, minSources, pairs).selected, minSources, pairs)
    decreases |ranked|
  {
    if ranked != [] {
      var init, c := ranked[..|ranked| - 1], ranked[|ranked| - 1];
      assert forall x :: x in init ==> x in ranked;
      GreedyJustified(init, minSources, pairs);
      var st := Greedy(init, minSources, pairs);
      assert forall r :: r in st.rejected ==> Justified(r, st.selected, minSources, pairs);
      assert ranked[..|ranked| - 1] == init;
      var g := Consider(st, c, minSources, pairs);
      assert Greedy(ranked, minSources, pairs) == g;
      assert c in ranked;
      if st.stopped {
      } else if st.spent + c.src.price > Budget {
        GreedyConsistent(init, minSources, pairs);
      } else if Clashes(c.src.name, NameSet(st.selected), pairs) {
      } else if c.src.tier != FreeTier && c.src.tier in TierSet(st.selected)
             && |st.selected| >= minSources {
      } else {
        assert g.selected == st.selected + [c] && g.rejected == st.rejected;
        forall r | r in g.rejected ensures Justified(r, g.selected, minSources, pairs) {
          assert r in st.rejected;
          JustifiedGrows(r, st.selected, c, minSources, pairs);
        }
      }
    }
  }

  /** The facts of `Consistent` that the callers of the pass rely on. */
  lemma GreedyFacts(ranked: seq<ScoredSource>, minSources: int, pairs: Pairs)
    ensures var g := Greedy(ranked, minSources, pairs);
      && (g.stopped <==> |g.selected| >= Cap(minSources))
      && g.spent == Total(g.selected, PriceOf) <= Budget
      && NoRedundantPair(g.selected, pairs)
      && TiersSpread(g.selected, minSources)
      && |g.selected| <= Cap(minSources)
      && IsSubseq(g.selected, ranked)
  {
    GreedyConsistent(ranked, minSources, pairs);
  }

  method SelectDiverse(ranked: seq<ScoredSource>, minSources: int, pairs: Pairs)
    returns (selected: seq<ScoredSource>, rejected: seq<Rejected>, spent: real)
    ensures Greedy(ranked, minSources, pairs) ==
      Selection(selected, rejected, spent, |selected| >= Cap(minSources))
    ensures spent == Total(selected, PriceOf) <= Budget
    ensures NoRedundantPair(selected, pairs)
    ensures TiersSpread(selected, minSources)
    ensures |selected| <= Cap(minSources)
    ensures IsSubseq(selected, ranked)
  {
    selected, rejected, spent := [], [], 0.0;
    var usedTiers: set<string> := {};
    var usedNames: set<string> := {};
    for i := 0 to |ranked|
      invariant Greedy(ranked[..i], minSources, pairs) == Selection(selected, rejected, spent, false)
      invariant usedTiers == TierSet(selected) && usedNames == NameSet(selected)
    {
      var c := ranked[i];
      GreedyStep(ranked, i, minSources, pairs, selected, rejected, spent);
      if spent + c.src.price > Budget {
        rejected := rejected + [Rejected(c, OverBudget)];
        continue;
      }
      var redundant := Clashes(c.src.name, usedNames, pairs);
      if redundant {
        rejected := rejected + [Rejected(c, Redundant)];
        continue;
      }
      var dupTier := c.src.tier != FreeTier && c.src.tier in usedTiers && |selected| >= minSources;
      if dupTier {
        rejected := rejected + [Rejected(c, DupTier)];
        continue;
      }
      NamesAndTiersGrow(selected, c);
      selected := selected + [c];
      spent := spent + c.src.price;
      usedTiers := usedTiers + {c.src.tier};
      usedNames := usedNames + {c.src.name};
      if |selected| >= Cap(minSources) {
        GreedyStopped(ranked, i + 1, minSources, pairs);
        break;
      }
    }
    assert ranked[..|ranked|] == ranked;
    GreedyFacts(ranked, minSources, pairs);
  }

  /** What gate 3 selects from the output of gates 1 and 2 comes from the
      scored catalog, passed gate 1, and is still in value order. */
  lemma SelectionFromGates(scored: seq<ScoredSource>, maxH: int, threshold: real,
                           minSources: int, pairs: Pairs)
    ensures var sel := Greedy(Ranked(Passed(scored, maxH, threshold)), minSources, pairs).selected;
      && (forall s :: s in sel ==> s in scored && Eligible(s, maxH, threshold))
      && SortedDesc(sel, ValueRatio)
  {
    var ranked := Ranked(Passed(scored, maxH, threshold));
    var sel := Greedy(ranked, minSources, pairs).selected;
    GreedyConsistent(ranked, minSources, pairs);
    SubseqMembers(sel, ranked);
    SubseqSorted(sel, ranked, ValueRatio);
    forall s | s in sel ensures s in scored && Eligible(s, maxH, threshold) {
      assert s in multiset(ranked);
      SubseqMembers(Passed(scored, maxH, threshold), scored);
    }
  }

  // ---------------------------------------------------------------------
  // Baseline and result (app.py:371-387)
  // ---------------------------------------------------------------------

  function Auth(s: Source): real { s.auth }
  function Price(s: Source): real { s.price }

  /** The three most authoritative catalog entries, catalog order among
      equals. */
  function NaiveBaseline(catalog: seq<Source>): (r: seq<Source>)
    ensures |r| == (if |catalog| < 3 then |catalog| else 3)
  {
    Prefix(SortDesc(catalog, Auth), 3)
  }

  /** The mean utility of the selection, 0 when it is empty. */
  function SmartQuality(sel: seq<ScoredSource>): (r: real)
    ensures sel == [] ==> r == 0.0
    ensures sel != [] ==> r * |sel| as real == Total(sel, UtilityOf)
  {
    if sel == [] then 0.0 else Average(sel, UtilityOf)
  }

  /** Savings as a percentage of the baseline's cost, 0 for a free baseline. */
  function SavingsPct(naiveCost: real, smartCost: real): (r: real)
    ensures naiveCost <= 0.0 ==> r == 0.0
    ensures naiveCost > 0.0 ==> r * naiveCost == (naiveCost - smartCost) * 100.0
    ensures naiveCost > 0.0 && smartCost == 0.0 ==> r == 100.0
    ensures smartCost == naiveCost ==> r == 0.0
  {
    if naiveCost > 0.0 then
      var share := (naiveCost - smartCost) / naiveCost;
      assert smartCost == 0.0 ==> share == 1.0;
      share * 100.0
    else 0.0
  }

  datatype Outcome = Outcome(
    sigs: SignalBundle,
    selected: seq<ScoredSource>,
    ineligible: seq<Ineligible>,
    rejected: seq<Rejected>,
    allScored: seq<ScoredSource>,
    smartCost: real,
    smartQ: real,
    naiveCost: real,
    naiveQ: real,
    savings: real,
    savingsPct: real)

  method Optimize(query: string, h: QueryHits, catalog: seq<Source>, boosts: BoostTable,
                  pairs: Pairs, sqrt: real -> real)
    returns (out: Outcome)
    requires PositiveRoot(sqrt) && h.Valid()
    requires |catalog| > 0
    ensures out.sigs == ExtractSignals(query, h, sqrt)
    ensures out.allScored == ScoreAll(out.sigs, catalog, boosts, sqrt)
    ensures var maxH, threshold := out.sigs.maxFreshnessHours, out.sigs.qualityThreshold;
      var g := Greedy(Ranked(Passed(out.allScored, maxH, threshold)), out.sigs.minSources, pairs);
      && out.selected == g.selected
      && out.smartCost == g.spent
      && out.rejected == Prefix(g.rejected, 4)
      && out.ineligible == Prefix(Failed(out.allScored, maxH, threshold), 6)
      && (forall s :: s in out.selected ==> s in out.allScored && Eligible(s, maxH, threshold))
    ensures out.smartCost == Total(out.selected, PriceOf) <= Budget
    ensures NoRedundantPair(out.selected, pairs)
    ensures TiersSpread(out.selected, out.sigs.minSources)
    ensures 1 <= out.sigs.minSources && |out.selected| <= out.sigs.minSources + 1 <= 3
    ensures SortedDesc(out.selected, ValueRatio)
    ensures |out.ineligible| <= 6 && |out.rejected| <= 4
    ensures out.smartQ == SmartQuality(out.selected)
    ensures var naive := NaiveBaseline(catalog);
      out.naiveCost == Total(naive, Price) && out.naiveQ == Average(naive, Auth)
    ensures out.savings == out.naiveCost - out.smartCost
    ensures out.savingsPct == SavingsPct(out.naiveCost, out.smartCost)
  {
    var sigs := ExtractSignals(query, h, sqrt);
    var scored := ScoreAll(sigs, catalog, boosts, sqrt);
    var eligible, ineligible := Gate(scored, sigs.maxFreshnessHours, sigs.qualityThreshold);
    var ranked := Ranked(eligible);
    var selected, rejected, spent := SelectDiverse(ranked, sigs.minSources, pairs);
    assert InRange(sigs);
    assert sigs.minSources == 1 || sigs.minSources == 2;
    assert |selected| <= Cap(sigs.minSources) == sigs.minSources + 1;
    SelectionFromGates(scored, sigs.maxFreshnessHours, sigs.qualityThreshold, sigs.minSources, pairs);
    var naive := NaiveBaseline(catalog);
    var naiveCost := Total(naive, Price);
    var naiveQ := Average(naive, Auth);
    out := Outcome(sigs, selected, Prefix(ineligible, 6), Prefix(rejected, 4), scored,
      spent, SmartQuality(selected), naiveCost, naiveQ, naiveCost - spent, SavingsPct(naiveCost, spent));
  }

  // ---------------------------------------------------------------------
  // Properties of the whole pipeline
  // ---------------------------------------------------------------------

  /** The sources gate 1 drops, without their reasons. */
  function Dropped(xs: seq<Ineligible>): (r: seq<ScoredSource>)
    ensures |r| == |xs| && forall k :: 0 <= k < |xs| ==> r[k] == xs[k].source
  {
    seq(|xs|, k requires 0 <= k < |xs| => xs[k].source)
  }

  /** Gate 1 on one more source: it joins the kept or the dropped ones. */
  lemma GateStep(scored: seq<ScoredSource>, maxH: int, threshold: real)
    requires scored != []
    ensures var init, s := scored[..|scored| - 1], scored[|scored| - 1];
      if Eligible(s, maxH, threshold) then
        Passed(scored, maxH, threshold) == Passed(init, maxH, threshold) + [s]
        && Failed(scored, maxH, threshold) == Failed(init, maxH, threshold)
      else
        Passed(scored, maxH, threshold) == Passed(init, maxH, threshold)
        && Dropped(Failed(scored, maxH, threshold)) == Dropped(Failed(init, maxH, threshold)) + [s]
  {
    var init, s := scored[..|scored| - 1], scored[|scored| - 1];
    if !Eligible(s, maxH, threshold) {
      var f := Failed(init, maxH, threshold);
      var x := Ineligible(s, GateReasons(s, maxH, threshold)[0]);
      assert Failed(scored, maxH, threshold) == f + [x];
      assert Dropped(f + [x]) == Dropped(f) + [s];
    }
  }

  /** Gate 1 splits the scored catalog: every source is either kept or
      dropped, as often as it occurs. */
  lemma {:induction false} GateSplitsCatalog(scored: seq<ScoredSource>, maxH: int, threshold: real)
    ensures multiset(Passed(scored, maxH, threshold)) + multiset(Dropped(Failed(scored, maxH, threshold)))
      == multiset(scored)
    decreases |scored|
  {
    if scored != [] {
      var init, s := scored[..|scored| - 1], scored[|scored| - 1];
      assert scored == init + [s];
      GateSplitsCatalog(init, maxH, threshold);
      GateStep(scored, maxH, threshold);
      var p, d := Passed(init, maxH, threshold), Dropped(Failed(init, maxH, threshold));
      assert multiset(scored) == multiset(init) + multiset{s};
      assert multiset(p + [s]) == multiset(p) + multiset{s};
      assert multiset(d + [s]) == multiset(d) + multiset{s};
    }
  }

  lemma DivAtMost(u: real, p: real, c: real)
    requires p > 0.0 && u <= c * p
    ensures u / p <= c
  {
    var q := u / p;
    assert q * p == u;
    assert (c - q) * p == c * p - u;
  }

  lemma FreeRatio(a: ScoredSource)
    requires a.src.price == 0.0 && a.utility >= 0.48
    ensures ValueRatio(a) >= 48.0
  {
    assert Max(a.src.price, PriceFloor) == 0.01;
  }

  lemma PaidRatio(b: ScoredSource)
    requires b.src.price >= 0.03 && b.utility <= 0.99
    ensures ValueRatio(b) <= 33.0
  {
    assert Max(b.src.price, PriceFloor) == b.src.price;
    DivAtMost(b.utility, b.src.price, 33.0);
  }

  /** A free source that passed gate 1 is ranked ahead of every eligible
      source costing three cents or more: its utility is at least 0.48
      against a one-cent floor, while no utility exceeds 0.99. */
  lemma FreeEligibleRanksFirst(scored: seq<ScoredSource>, maxH: int, threshold: real, i: nat, j: nat)
    requires threshold >= 0.60
    requires forall s :: s in scored ==> s.utility <= 0.99
    requires var ranked := Ranked(Passed(scored, maxH, threshold));
      && i < |ranked| && j < |ranked|
      && ranked[i].src.price == 0.0 && ranked[j].src.price >= 0.03
    ensures i < j
  {
    var passed := Passed(scored, maxH, threshold);
    var ranked := Ranked(passed);
    var a, b := ranked[i], ranked[j];
    assert a in multiset(passed) && b in multiset(passed);
    assert a in passed && b in passed;
    SubseqMembers(passed, scored);
    FreeRatio(a);
    PaidRatio(b);
    LargerKeyFirst(ranked, ValueRatio, i, j);
  }

  /** The baseline holds the most authoritative catalog entries: each of
      them has at least the authority of every entry left out. */
  lemma NaiveIsTopByAuthority(catalog: seq<Source>)
    ensures multiset(NaiveBaseline(catalog)) <= multiset(catalog)
    ensures forall x, y ::
      x in NaiveBaseline(catalog) && y in multiset(catalog) - multiset(NaiveBaseline(catalog)) ==>
        x.auth >= y.auth
  {
    var sorted := SortDesc(catalog, Auth);
    var naive := NaiveBaseline(catalog);
    assert naive == sorted[..|naive|];
    PrefixRemoved(sorted, |naive|);
    SortedSplit(sorted, Auth, |naive|);
    forall x, y | x in naive && y in multiset(sorted[|naive|..]) ensures x.auth >= y.auth {
      assert Auth(x) >= Auth(y);
    }
  }

  /** The savings percentage is at most 100 when nothing is spent below
      zero, and not negative exactly when the router spends no more than
      the baseline. */
  lemma SavingsPctBounds(naiveCost: real, smartCost: real)
    requires naiveCost > 0.0
    ensures smartCost >= 0.0 ==> SavingsPct(naiveCost, smartCost) <= 100.0
    ensures SavingsPct(naiveCost, smartCost) >= 0.0 <==> smartCost <= naiveCost
  {
    var d := naiveCost - smartCost;
    if smartCost >= 0.0 {
      DivAtMost(d, naiveCost, 1.0);
    }
    assert d / naiveCost * naiveCost == d;
    if d >= 0.0 {
      assert d / naiveCost >= 0.0;
    } else {
      assert d / naiveCost < 0.0;
    }
  }

  /** Both quality figures stay within the range of their terms: the mean
      utility of the selection in [0, 0.99] and the baseline's mean
      authority in [0, 1]. */
  lemma QualityFiguresBounded(sel: seq<ScoredSource>, catalog: seq<Source>)
    requires forall s :: s in sel ==> 0.0 <= s.utility <= 0.99
    requires |catalog| > 0 && forall s :: s in catalog ==> WellFormedSource(s)
    ensures 0.0 <= SmartQuality(sel) <= 0.99
    ensures 0.0 <= Average(NaiveBaseline(catalog), Auth) <= 1.0
  {
    if sel != [] {
      AverageBounds(sel, UtilityOf, 0.0, 0.99);
    }
    NaiveIsTopByAuthority(catalog);
    var naive := NaiveBaseline(catalog);
    forall x | x in naive ensures 0.0 <= Auth(x) <= 1.0 {
      assert x in multiset(naive);
      assert x in multiset(catalog);
      assert x in catalog;
    }
    AverageBounds(naive, Auth, 0.0, 1.0);
  }

  function SourceName(s: Source): string { s.name }

  /** With distinct names in the catalog the selection never holds the same
      source twice. */
  lemma SelectedNamesDistinct(scored: seq<ScoredSource>, maxH: int, threshold: real,
                              minSources: int, pairs: Pairs)
    requires Injective(scored, NameOf)
    ensures Injective(Greedy(Ranked(Passed(scored, maxH, threshold)), minSources, pairs).selected, NameOf)
  {
    var passed := Passed(scored, maxH, threshold);
    SubseqInjective(passed, scored, NameOf);
    SortInjective(passed, ValueRatio, NameOf);
    var ranked := Ranked(passed);
    GreedyConsistent(ranked, minSources, pairs);
    SubseqInjective(Greedy(ranked, minSources, pairs).selected, ranked, NameOf);
  }

  /** Scoring keeps every catalog entry's name. */
  lemma ScoringKeepsNames(sig: SignalBundle, catalog: seq<Source>, boosts: BoostTable, sqrt: real -> real)
    requires PositiveRoot(sqrt)
    requires Injective(catalog, SourceName)
    ensures Injective(ScoreAll(sig, catalog, boosts, sqrt), NameOf)
  {
    var scored := ScoreAll(sig, catalog, boosts, sqrt);
    forall i, j | 0 <= i < j < |scored| ensures NameOf(scored[i]) != NameOf(scored[j]) {
      assert NameOf(scored[i]) == SourceName(catalog[i]);
      assert NameOf(scored[j]) == SourceName(catalog[j]);
    }
  }
}
