/**
 Scenario presets, what makes one runnable, and `scale_scenario`.
 */
module Scenarios {
  import opened Common
  import Records
  import opened Gs1

  datatype Scale = Small | Midsize | Enterprise

  datatype Industry = Produce | Seafood | Dairy | ImportedProduce

  /** A facility, its GLN given by the location id it is built from. */
  datatype Site = Site(name: string, glnId: nat)

  datatype Weights = Weights(harvest: nat, cool: nat, pack: nat, ship: nat, receive: nat, transform: nat)

  /** `low` and `high` bound a source quantity in whole units; probabilities are in percent. */
  datatype Preset = Preset(
    farms: seq<Site>,
    coolers: seq<Site>,
    packers: seq<Site>,
    processors: seq<Site>,
    dcs: seq<Site>,
    retailers: seq<Site>,
    products: seq<string>,
    outputs: seq<string>,
    carriers: seq<string>,
    weights: Weights,
    industry: Industry,
    sourceCte: Records.Cte,
    requiresCooling: bool,
    harvestTarget: nat,
    toProcessor: nat,
    inputChoices: seq<nat>,
    low: nat,
    high: nat)

  /** Every draw the engine can be led to make has something to draw from. */
  predicate WellFormed(p: Preset) {
    && (if p.industry.Seafood? then p.coolers != [] else p.farms != [])
    && (p.requiresCooling ==> p.coolers != [] && p.weights.cool >= 1)
    && p.packers != [] && p.dcs != [] && p.retailers != [] && p.products != [] && p.carriers != []
    && (p.toProcessor > 0 ==> p.processors != [])
    && (p.weights.transform > 0 ==> p.processors != [] && p.outputs != [])
    && p.weights.harvest >= 1 && p.weights.pack >= 1
    && p.harvestTarget >= 1 && p.toProcessor <= 100
    && p.inputChoices != [] && (forall i :: 0 <= i < |p.inputChoices| ==> p.inputChoices[i] >= 1)
    && 1 <= p.low <= p.high
  }

  // ------------------------------------------------------------------ GLNs

  function GlnBody(id: nat): (s: seq<Digit>)
    ensures |s| == 12
  {
    [0, 8, 5, 0, 0, 0, 0] + LastDigits(id, 5)
  }

  function Gln(id: nat): seq<Digit> {
    GlnBody(id) + [CheckDigit(GlnBody(id))]
  }

  /** `_gln` */
  method MakeGln(id: nat) returns (gln: seq<Digit>)
    requires id < 100000
    ensures |gln| == 13 && Checks(gln) && gln == Gln(id)
  {
    var check := GlnCheckDigit(GlnBody(id));
    gln := GlnBody(id) + [check];
    CheckDigitIsTheOne(GlnBody(id), check);
  }

  lemma GlnsDiffer(m: nat, n: nat)
    requires m < 100000 && n < 100000 && m != n
    ensures Gln(m) != Gln(n)
  {
    assert Power10(2) == 100 && Power10(5) == 100000;
    LastDigitsValue(m, 5);
    LastDigitsValue(n, 5);
    assert Gln(m)[7..12] == LastDigits(m, 5) && Gln(n)[7..12] == LastDigits(n, 5);
  }

  // ------------------------------------------------------------------ scaling

  const GENERATED_GLN_BASE: nat := 60000

  function FirstOf<T>(s: seq<T>, n: nat): seq<T> {
    if |s| <= n then s else s[..n]
  }

  function Cloned(locations: seq<Site>, id: nat, k: nat): Site
    requires |locations| <= k && locations != []
  {
    Site(locations[k % |locations|].name + " \U{2014} Site " + Chars(Padded(k - |locations| + 2, 1)), id + k - |locations|)
  }

  /** A tier grown to `target` sites, ids from `id` on; an empty tier stays empty. */
  function Expanded(locations: seq<Site>, target: nat, id: nat): (r: seq<Site>)
    ensures |r| == if locations == [] then 0 else Max(|locations|, target)
    ensures forall k :: 0 <= k < |locations| ==> r[k] == locations[k]
    ensures forall k :: |locations| <= k < |r| ==> r[k] == Cloned(locations, id, k)
  {
    if locations == [] then []
    else
      seq(Max(|locations|, target), k requires 0 <= k =>
        if k < |locations| then locations[k] else Cloned(locations, id, k))
  }

  function Added(tier: seq<Site>, target: nat): (n: nat)
    ensures n <= target
  {
    if tier == [] then 0 else Max(|tier|, target) - |tier|
  }

  /** `expand`: clones sites in turn until the tier is large enough. */
  method Expand(locations: seq<Site>, target: nat, firstId: nat) returns (expanded: seq<Site>, nextId: nat)
    ensures expanded == Expanded(locations, target, firstId)
    ensures nextId == firstId + Added(locations, target)
  {
    expanded, nextId := locations, firstId;
    if locations == [] {
      return;
    }
    var siteNumber := 2;
    while |expanded| < target
      invariant |locations| <= |expanded| <= Max(|locations|, target)
      invariant siteNumber == |expanded| - |locations| + 2 && nextId == firstId + |expanded| - |locations|
      invariant forall k :: 0 <= k < |expanded| ==> expanded[k] == Expanded(locations, target, firstId)[k]
    {
      var origin := locations[|expanded| % |locations|];
      expanded := expanded + [Site(origin.name + " \U{2014} Site " + Chars(Padded(siteNumber, 1)), nextId)];
      siteNumber, nextId := siteNumber + 1, nextId + 1;
    }
  }

  function Shrunk(p: Preset): Preset {
    var w := p.weights;
    p.(farms := FirstOf(p.farms, 1), coolers := FirstOf(p.coolers, 1), packers := FirstOf(p.packers, 1),
       processors := FirstOf(p.processors, 1), dcs := FirstOf(p.dcs, 1), retailers := FirstOf(p.retailers, 2),
       harvestTarget := Max(1, p.harvestTarget / 2),
       toProcessor := if p.toProcessor <= 20 then p.toProcessor else 20,
       weights := if w.transform > 0 then w.(transform := Max(1, w.transform / 2)) else w)
  }

  /** The six tiers in the order they are scaled, and how many sites an enterprise has in each. */
  function Tiers(p: Preset): (t: seq<seq<Site>>)
    ensures |t| == 6
  {
    [p.farms, p.coolers, p.packers, p.processors, p.dcs, p.retailers]
  }

  const TARGETS: seq<nat> := [12, 4, 4, 3, 5, 10]

  /** The first id not yet used once the first `n` tiers are expanded. */
  function NextId(tiers: seq<seq<Site>>, n: nat): (id: nat)
    requires n <= |tiers| == 6
    ensures id >= GENERATED_GLN_BASE
  {
    if n == 0 then GENERATED_GLN_BASE else NextId(tiers, n - 1) + Added(tiers[n - 1], TARGETS[n - 1])
  }

  function Grown(tiers: seq<seq<Site>>, n: nat): seq<Site>
    requires n < |tiers| == 6
  {
    Expanded(tiers[n], TARGETS[n], NextId(tiers, n))
  }

  function Enlarged(p: Preset): Preset {
    var t := Tiers(p);
    p.(farms := Grown(t, 0), coolers := Grown(t, 1), packers := Grown(t, 2), processors := Grown(t, 3),
       dcs := Grown(t, 4), retailers := Grown(t, 5), harvestTarget := p.harvestTarget * 4)
  }

  function Scaled(p: Preset, scale: Scale): Preset {
    match scale
    case Midsize => p
    case Small => Shrunk(p)
    case Enterprise => Enlarged(p)
  }

  method ExpandTier(tiers: seq<seq<Site>>, n: nat, firstId: nat) returns (expanded: seq<Site>, nextId: nat)
    requires n < |tiers| == 6 && firstId == NextId(tiers, n)
    ensures expanded == Grown(tiers, n) && nextId == NextId(tiers, n + 1)
  {
    expanded, nextId := Expand(tiers[n], TARGETS[n], firstId);
  }

  method ScaleScenario(p: Preset, scale: Scale) returns (q: Preset)
    ensures q == Scaled(p, scale)
  {
    if scale.Midsize? {
      return p;
    }
    if scale.Small? {
      return Shrunk(p);
    }
    hide Expanded, Added;
    var t := Tiers(p);
    var farms, coolers, packers, processors, dcs, retailers;
    var id := GENERATED_GLN_BASE;
    farms, id := ExpandTier(t, 0, id);
    coolers, id := ExpandTier(t, 1, id);
    packers, id := ExpandTier(t, 2, id);
    processors, id := ExpandTier(t, 3, id);
    dcs, id := ExpandTier(t, 4, id);
    retailers, id := ExpandTier(t, 5, id);
    q := p.(farms := farms, coolers := coolers, packers := packers, processors := processors, dcs := dcs,
            retailers := retailers, harvestTarget := p.harvestTarget * 4);
  }

  /** The cents a source quantity lies between, at a scale: a quarter, once or four times. */
  function LowCents(p: Preset, scale: Scale): nat {
    p.low * (if scale.Small? then 25 else if scale.Midsize? then 100 else 400)
  }

  function HighCents(p: Preset, scale: Scale): nat {
    p.high * (if scale.Small? then 25 else if scale.Midsize? then 100 else 400)
  }

  /** A preset that can run can run at every scale, and the other way round. */
  lemma ScaleKeepsWellFormed(p: Preset, scale: Scale)
    requires p.harvestTarget >= 1 && p.toProcessor <= 100
    ensures WellFormed(Scaled(p, scale)) <==> WellFormed(p)
    ensures WellFormed(p) ==> 1 <= LowCents(p, scale) <= HighCents(p, scale)
  {
    hide Cloned, Padded, Chars;
  }

  /** Each scale's tiers begin with those of the smaller one, and its target is no smaller. */
  lemma ScalesNest(p: Preset, k: nat)
    requires k < 6 && p.harvestTarget >= 1
    ensures Tiers(Scaled(p, Small))[k] <= Tiers(p)[k] <= Tiers(Scaled(p, Enterprise))[k]
    ensures 1 <= Scaled(p, Small).harvestTarget <= p.harvestTarget <= Scaled(p, Enterprise).harvestTarget
    ensures Tiers(p)[k] == [] <==> Tiers(Scaled(p, Small))[k] == []
    ensures Tiers(p)[k] == [] <==> Tiers(Scaled(p, Enterprise))[k] == []
    ensures Tiers(p)[k] != [] ==> |Tiers(Scaled(p, Enterprise))[k]| >= TARGETS[k]
  {
    hide Cloned, NextId;
    assert Tiers(p)[k] <= Grown(Tiers(p), k);
    assert Tiers(Scaled(p, Enterprise))[k] == Grown(Tiers(p), k);
  }

  // ------------------------------------------------------------------ the network

  /** The sites of the first `n` tiers, as authored and as grown. */
  function SitesOf(tiers: seq<seq<Site>>, n: nat): seq<Site>
    requires n <= |tiers|
  {
    if n == 0 then [] else SitesOf(tiers, n - 1) + tiers[n - 1]
  }

  function AllSites(p: Preset): seq<Site> {
    SitesOf(Tiers(p), 6)
  }

  predicate DifferentIds(sites: seq<Site>, i: nat, j: nat)
    requires i < |sites| && j < |sites|
  {
    sites[i].glnId != sites[j].glnId
  }

  ghost predicate UniqueIds(sites: seq<Site>) {
    forall i: nat, j: nat :: i < j < |sites| ==> DifferentIds(sites, i, j)
  }

  ghost predicate IdsWithin(sites: seq<Site>, low: nat, high: nat) {
    forall i: nat :: i < |sites| ==> low <= sites[i].glnId < high
  }

  /** One tier's sites, in parts: the authored ones and the clones, which come behind them. */
  lemma ExpandedParts(tier: seq<Site>, target: nat, id: nat) returns (clones: seq<Site>)
    ensures Expanded(tier, target, id) == tier + clones && |clones| == Added(tier, target)
    ensures UniqueIds(clones) && IdsWithin(clones, id, id + |clones|)
  {
    hide Chars, Padded;
    clones := Expanded(tier, target, id)[|tier|..];
  }

  lemma JoinUnique(s: seq<Site>, t: seq<Site>, low: nat, middle: nat, high: nat)
    requires UniqueIds(s) && UniqueIds(t) && low <= middle <= high
    requires IdsWithin(s, low, middle) && IdsWithin(t, middle, high)
    ensures UniqueIds(s + t) && IdsWithin(s + t, low, high)
  {
    forall i: nat, j: nat | i < j < |s + t| ensures DifferentIds(s + t, i, j) {
      if j < |s| { assert DifferentIds(s, i, j); }
      if |s| <= i { assert DifferentIds(t, i - |s|, j - |s|); }
    }
  }

  function Grow(tiers: seq<seq<Site>>): (t: seq<seq<Site>>)
    requires |tiers| == 6
    ensures |t| == 6 && forall k :: 0 <= k < 6 ==> t[k] == Grown(tiers, k)
  {
    seq(6, k requires 0 <= k < 6 => Grown(tiers, k))
  }

  lemma MixedParts(grown: seq<Site>, authored: seq<Site>, clones: seq<Site>, tier: seq<Site>, more: seq<Site>)
    requires multiset(grown) == multiset(authored) + multiset(clones)
    ensures multiset(grown + (tier + more)) == multiset(authored + tier) + multiset(clones + more)
  {}

  lemma EnlargedTiers(p: Preset)
    ensures Tiers(Enlarged(p)) == Grow(Tiers(p))
  {
    hide Expanded, Added;
    var t, u := Tiers(Enlarged(p)), Grow(Tiers(p));
    assert t[0] == u[0] && t[1] == u[1] && t[2] == u[2] && t[3] == u[3] && t[4] == u[4] && t[5] == u[5];
  }

  lemma SitesNext(tiers: seq<seq<Site>>, n: nat, more: seq<Site>)
    requires n < |tiers| == 6
    requires Expanded(tiers[n], TARGETS[n], NextId(tiers, n)) == tiers[n] + more && |more| == Added(tiers[n], TARGETS[n])
    ensures NextId(tiers, n + 1) == NextId(tiers, n) + |more|
    ensures SitesOf(Grow(tiers), n + 1) == SitesOf(Grow(tiers), n) + (tiers[n] + more)
    ensures SitesOf(tiers, n + 1) == SitesOf(tiers, n) + tiers[n]
  {
    hide Expanded, Added;
  }

  /** One more tier grown: its clones join those before it. */
  lemma TierClones(tiers: seq<seq<Site>>, n: nat, before: seq<Site>) returns (clones: seq<Site>)
    requires n < |tiers| == 6
    requires multiset(SitesOf(Grow(tiers), n)) == multiset(SitesOf(tiers, n)) + multiset(before)
    requires UniqueIds(before) && IdsWithin(before, GENERATED_GLN_BASE, NextId(tiers, n))
    ensures multiset(SitesOf(Grow(tiers), n + 1)) == multiset(SitesOf(tiers, n + 1)) + multiset(clones)
    ensures UniqueIds(clones) && IdsWithin(clones, GENERATED_GLN_BASE, NextId(tiers, n + 1))
  {
    var more := ExpandedParts(tiers[n], TARGETS[n], NextId(tiers, n));
    SitesNext(tiers, n, more);
    hide *;
    JoinUnique(before, more, GENERATED_GLN_BASE, NextId(tiers, n), NextId(tiers, n + 1));
    MixedParts(SitesOf(Grow(tiers), n), SitesOf(tiers, n), before, tiers[n], more);
    clones := before + more;
  }

  lemma NoSites(id: nat)
    ensures UniqueIds([]) && IdsWithin([], id, id)
  {}

  lemma {:induction false} ClonesOf(tiers: seq<seq<Site>>, n: nat) returns (clones: seq<Site>)
    requires n <= |tiers| == 6
    ensures multiset(SitesOf(Grow(tiers), n)) == multiset(SitesOf(tiers, n)) + multiset(clones)
    ensures UniqueIds(clones) && IdsWithin(clones, GENERATED_GLN_BASE, NextId(tiers, n))
  {
    hide Grow, UniqueIds, IdsWithin;
    if n == 0 {
      clones := [];
      NoSites(GENERATED_GLN_BASE);
    } else {
      hide *;
      var before := ClonesOf(tiers, n - 1);
      clones := TierClones(tiers, n - 1, before);
    }
  }

  lemma NextIdGrows(tiers: seq<seq<Site>>, n: nat)
    requires n < |tiers| == 6
    ensures NextId(tiers, 0) == GENERATED_GLN_BASE && NextId(tiers, n) <= NextId(tiers, n + 1) <= NextId(tiers, n) + TARGETS[n]
  {}

  lemma AtMost38(tiers: seq<seq<Site>>)
    requires |tiers| == 6
    ensures NextId(tiers, 6) <= GENERATED_GLN_BASE + 38
  {
    NextIdGrows(tiers, 0);
    NextIdGrows(tiers, 1);
    NextIdGrows(tiers, 2);
    NextIdGrows(tiers, 3);
    NextIdGrows(tiers, 4);
    NextIdGrows(tiers, 5);
  }

  /** The clones of an enlarged network. */
  lemma AllClones(p: Preset) returns (clones: seq<Site>)
    ensures multiset(AllSites(Enlarged(p))) == multiset(AllSites(p)) + multiset(clones)
    ensures UniqueIds(clones) && IdsWithin(clones, GENERATED_GLN_BASE, GENERATED_GLN_BASE + 38)
  {
    hide Grown, NextId, SitesOf, UniqueIds;
    clones := ClonesOf(Tiers(p), 6);
    EnlargedTiers(p);
    AtMost38(Tiers(p));
  }

  /** Enlarging adds at most 38 sites, whose GLNs are all different from one another and from
      those of every authored site below the generated range. */
  lemma GeneratedGlnsAreNew(p: Preset) returns (clones: seq<Site>)
    ensures multiset(AllSites(Enlarged(p))) == multiset(AllSites(p)) + multiset(clones)
    ensures forall i, j :: 0 <= i < j < |clones| ==> Gln(clones[i].glnId) != Gln(clones[j].glnId)
    ensures forall i, j ::
      0 <= i < |clones| && 0 <= j < |AllSites(p)| && AllSites(p)[j].glnId < GENERATED_GLN_BASE
      ==> Gln(clones[i].glnId) != Gln(AllSites(p)[j].glnId)
  {
    hide Gln, Enlarged, AllSites;
    clones := AllClones(p);
    forall i, j | 0 <= i < j < |clones| ensures Gln(clones[i].glnId) != Gln(clones[j].glnId) {
      assert DifferentIds(clones, i, j);
      GlnsDiffer(clones[i].glnId, clones[j].glnId);
    }
    forall i, j | 0 <= i < |clones| && 0 <= j < |AllSites(p)| && AllSites(p)[j].glnId < GENERATED_GLN_BASE
      ensures Gln(clones[i].glnId) != Gln(AllSites(p)[j].glnId)
    {
      GlnsDiffer(clones[i].glnId, AllSites(p)[j].glnId);
    }
  }
}
