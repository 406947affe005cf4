/**
 What scaling a preset changes, tier by tier and number by number, and what the identifiers
 it generates spell out.
 */
module ScaleEffects {
  import opened Common
  import opened Gs1
  import opened Scenarios

  /** Nothing but the facilities, the target, the odds and the weights. */
  predicate SameOtherwise(p: Preset, q: Preset) {
    && q.products == p.products && q.outputs == p.outputs && q.carriers == p.carriers && q.industry == p.industry
    && q.sourceCte == p.sourceCte && q.requiresCooling == p.requiresCooling && q.inputChoices == p.inputChoices
    && q.low == p.low && q.high == p.high
  }

  /** A small operation keeps the first site of each tier and two retailers, half the target
      but at least one, at most a fifth of its packed lots to processing, and half the weight
      of transformations but at least one if there was any. */
  lemma SmallIs(p: Preset)
    ensures var q := Scaled(p, Small); var w := p.weights;
      && SameOtherwise(p, q)
      && q.farms == p.farms[..Min(1, |p.farms|)] && q.coolers == p.coolers[..Min(1, |p.coolers|)]
      && q.packers == p.packers[..Min(1, |p.packers|)] && q.processors == p.processors[..Min(1, |p.processors|)]
      && q.dcs == p.dcs[..Min(1, |p.dcs|)] && q.retailers == p.retailers[..Min(2, |p.retailers|)]
      && q.harvestTarget == (if p.harvestTarget < 4 then 1 else p.harvestTarget / 2)
      && q.toProcessor <= 20 && (q.toProcessor < 20 ==> q.toProcessor == p.toProcessor) && q.toProcessor <= p.toProcessor
      && q.weights == w.(transform := if w.transform == 0 then 0 else if w.transform < 4 then 1 else w.transform / 2)
  {}

  /** So many sites an enterprise has at least in each tier it has any in. */
  predicate GrownTo(tier: seq<Site>, grown: seq<Site>, target: nat) {
    && tier <= grown
    && |grown| == if tier == [] then 0 else if |tier| < target then target else |tier|
  }

  /** An enterprise has its tiers grown to twelve farms, four coolers, four packers, three
      processors, five distribution centres and ten retailers, and four times the target. */
  lemma EnterpriseIs(p: Preset)
    ensures var q := Scaled(p, Enterprise);
      && SameOtherwise(p, q) && q.weights == p.weights && q.toProcessor == p.toProcessor
      && GrownTo(p.farms, q.farms, 12) && GrownTo(p.coolers, q.coolers, 4) && GrownTo(p.packers, q.packers, 4)
      && GrownTo(p.processors, q.processors, 3) && GrownTo(p.dcs, q.dcs, 5) && GrownTo(p.retailers, q.retailers, 10)
      && q.harvestTarget == 4 * p.harvestTarget
  {
    hide NextId, Cloned;
    var t := Tiers(p);
    TierGrows(t, 0);
    TierGrows(t, 1);
    TierGrows(t, 2);
    TierGrows(t, 3);
    TierGrows(t, 4);
    TierGrows(t, 5);
    hide Grown, GrownTo;
  }

  lemma TierGrows(tiers: seq<seq<Site>>, n: nat)
    requires n < |tiers| == 6
    ensures GrownTo(tiers[n], Grown(tiers, n), [12, 4, 4, 3, 5, 10][n])
  {
    hide NextId, Cloned;
  }

  /** The midsize operation is the preset as authored. */
  lemma MidsizeIs(p: Preset)
    ensures Scaled(p, Midsize) == p
  {}

  /** Added sites repeat the authored ones in turn, numbered from two on, under ids of the
      generated range, each one more than the one before. */
  lemma ClonesGoRound(tier: seq<Site>, target: nat, id: nat, k: nat)
    requires |tier| <= k < |Expanded(tier, target, id)|
    ensures tier != [] && k < target
    ensures var site := Expanded(tier, target, id)[k]; var number := k - |tier| + 2;
      && site.name == tier[k % |tier|].name + " \U{2014} Site " + Chars(Padded(number, 1))
      && site.glnId == id + (number - 2)
  {
    hide Chars, Padded;
  }

  /** Source quantities at a quarter, once or four times the product's range, in cents. */
  lemma QuantitiesScale(p: Preset)
    ensures LowCents(p, Midsize) == 100 * p.low && HighCents(p, Midsize) == 100 * p.high
    ensures 4 * LowCents(p, Small) == 100 * p.low && 4 * HighCents(p, Small) == 100 * p.high
    ensures LowCents(p, Enterprise) == 400 * p.low && HighCents(p, Enterprise) == 400 * p.high
  {}

  // ------------------------------------------------------------------ identifiers

  function At(s: seq<Digit>, i: nat): int
    requires i < |s|
  {
    s[i]
  }

  /** Thirteen digits check when those in odd places and three times those in even places
      make up a multiple of ten. */
  lemma ThirteenCheck(s: seq<Digit>)
    requires |s| == 13
    ensures Checks(s) <==>
      (At(s, 0) + At(s, 2) + At(s, 4) + At(s, 6) + At(s, 8) + At(s, 10) + At(s, 12)
       + 3 * (At(s, 1) + At(s, 3) + At(s, 5) + At(s, 7) + At(s, 9) + At(s, 11))) % 10 == 0
  {
    SumOfNone(s);
    SumOfNext(s, 0);
    SumOfNext(s, 1);
    SumOfNext(s, 2);
    SumOfNext(s, 3);
    SumOfNext(s, 4);
    SumOfNext(s, 5);
    SumOfNext(s, 6);
    SumOfNext(s, 7);
    SumOfNext(s, 8);
    SumOfNext(s, 9);
    SumOfNext(s, 10);
    SumOfNext(s, 11);
    SumOfNext(s, 12);
    hide SumLast, At;
  }

  lemma SumOfNone(s: seq<Digit>)
    ensures SumLast(s, 0) == 0
  {}

  lemma SumOfNext(s: seq<Digit>, n: nat)
    requires n < |s|
    ensures SumLast(s, n + 1) == SumLast(s, n) + if n % 2 == 0 then At(s, |s| - 1 - n) else 3 * At(s, |s| - 1 - n)
  {}

  /** A GLN spells out the company prefix and the location's id. */
  lemma GlnSpellsOut(id: nat)
    requires id < 100000
    ensures |Gln(id)| == 13 && Gln(id)[..7] == [0, 8, 5, 0, 0, 0, 0] && Value(Gln(id)[7..12]) == id && Checks(Gln(id))
  {
    assert Power10(2) == 100 && Power10(5) == 100000;
    LastDigitsValue(id, 5);
    CheckDigitIsTheOne(GlnBody(id), CheckDigit(GlnBody(id)));
    assert Gln(id)[7..12] == LastDigits(id, 5);
  }

  /** An SSCC spells out the extension digit, the company prefix, the day of the year and the
      last six digits of the serial. */
  lemma SsccSpellsOut(day: nat, serial: nat)
    requires day <= 366
    ensures var s := SsccBase(day, serial);
      |s| == 17 && s[..8] == [0, 8, 5, 0, 0, 0, 0, 0] && Value(s[8..11]) == day && Value(s[11..]) == serial % 1000000
  {
    assert Power10(3) == 1000;
    SmallPowers();
    LastDigitsValue(day, 3);
    LastDigitsValue(serial % 1000000, 6);
    var s := SsccBase(day, serial);
    assert s[8..11] == LastDigits(day, 3) && s[11..] == LastDigits(serial % 1000000, 6);
  }

  /** The item reference of an SGTIN always has five digits, the first not zero. */
  lemma ItemReferenceFits(serial: nat)
    ensures var digits := LastDigits(10000 + serial % 89999, 5);
      Value(digits) == 10000 + serial % 89999 && digits[0] != 0
  {
    var n := 10000 + serial % 89999;
    assert Power10(2) == 100 && Power10(5) == 100000;
    LastDigitsValue(n, 5);
    var digits := LastDigits(n, 5);
    FirstOfFive(n);
  }

  lemma FirstOfFive(n: nat)
    requires 10000 <= n < 100000
    ensures LastDigits(n, 5)[0] == n / 10000
  {
    assert LastDigits(n, 5)[0] == LastDigits(n / 10, 4)[0];
    assert LastDigits(n / 10, 4)[0] == LastDigits(n / 10 / 10, 3)[0];
    assert LastDigits(n / 10 / 10, 3)[0] == LastDigits(n / 10 / 10 / 10, 2)[0];
    assert LastDigits(n / 10 / 10 / 10, 2)[0] == LastDigits(n / 10 / 10 / 10 / 10, 1)[0];
    assert n / 10 / 10 / 10 / 10 == n / 10000;
  }

  /** A number padded to six digits spells itself out. */
  lemma PaddedSpellsOut(serial: nat)
    ensures |Padded(serial, 6)| >= 6 && Value(Padded(serial, 6)) == serial
  {
    LastDigitsValue(serial, Width(serial, 6));
  }

  /** A plain lot code spells out its date and serial, an SGTIN the company, the item
      reference, the date and the serial. */
  lemma LotCodesSpellOut(long: string, short: string, serial: nat)
    requires |long| == 8 && |short| == 6
    ensures var code := PlainCode(long, serial);
      code[..4] == "TLC-" && code[4..12] == long && code[12] == '-' && code[13..] == Chars(Padded(serial, 6))
    ensures var code := SgtinCode(short, serial); var prefix := "urn:epc:id:sgtin:8500000.";
      && code[..25] == prefix && code[25..30] == Chars(LastDigits(10000 + serial % 89999, 5)) && code[30] == '.'
      && code[31..37] == short && code[37..] == Chars(Padded(serial, 6))
  {
    hide Padded, Chars, LastDigits;
    var code := SgtinCode(short, serial);
    var prefix := "urn:epc:id:sgtin:8500000.";
    assert |prefix| == 25 && code[..25] == prefix;
    var item := Chars(LastDigits(10000 + serial % 89999, 5));
    assert code == prefix + (item + "." + (short + Chars(Padded(serial, 6))));
  }
}
