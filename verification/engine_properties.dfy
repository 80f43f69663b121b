/**
 * Properties of the savings engine: the Fio B share splits the distribution
 * saving exactly, the tax savings are the tax rate on the inclusion set the
 * policy names, COSIP is capped, zero compensated energy gives zero savings,
 * the components are non-negative for in-range inputs, the fields the engine
 * does not read do not matter, and the default inputs give the reference
 * values.
 */
module EngineProperties {
  import opened CalculatorTypes
  import opened Calculations
  import CalculatorState

  /** A tariff saving that a tax base may include. */
  datatype Component = FioBPart | TusdPart | TePart

  /** The components each ICMS policy taxes. */
  function IcmsBase(p: IcmsPolicy): set<Component>
  {
    match p
    case IcmsFioB => {FioBPart}
    case IcmsFioBTusd => {FioBPart, TusdPart}
    case IcmsFioBTusdTe => {FioBPart, TusdPart, TePart}
    case IcmsIsento => {}
  }

  /** The components each PIS/COFINS policy taxes. */
  function PisBase(p: PisCofinsPolicy): set<Component>
  {
    match p
    case PisFioB => {FioBPart}
    case PisFioBTusdTe => {FioBPart, TusdPart, TePart}
    case PisIsento => {}
  }

  /** Sum of the savings named in `s`. */
  function BaseOf(s: set<Component>, fioB: real, tusd: real, te: real): real
  {
    (if FioBPart in s then fioB else 0.0)
    + (if TusdPart in s then tusd else 0.0)
    + (if TePart in s then te else 0.0)
  }

  lemma MulNonNegative(a: real, b: real)
    requires a >= 0.0 && b >= 0.0
    ensures a * b >= 0.0
  {
  }

  /** The Fio B saving and the remaining TUSD saving together are the whole distribution saving. */
  lemma DistributionSplit(e: real, tusd: real, fioB: real, gd2: real)
    ensures EconomiaFioB(e, tusd, fioB, gd2) + EconomiaTUSD(e, tusd, fioB, gd2)
         == e * tusd * (gd2 / 100.0)
  {
  }

  /** For an in-range Fio B share, both parts of the split are non-negative. */
  lemma DistributionSplitNonNegative(e: real, tusd: real, fioB: real, gd2: real)
    requires e >= 0.0 && tusd >= 0.0 && gd2 >= 0.0 && 0.0 <= fioB <= 100.0
    ensures 0.0 <= EconomiaFioB(e, tusd, fioB, gd2) <= e * tusd * (gd2 / 100.0)
    ensures 0.0 <= EconomiaTUSD(e, tusd, fioB, gd2) <= e * tusd * (gd2 / 100.0)
  {
    var k := e * tusd * (gd2 / 100.0);
    MulNonNegative(e, tusd);
    MulNonNegative(e * tusd, gd2 / 100.0);
    MulNonNegative(k, fioB / 100.0);
    MulNonNegative(k, 1.0 - fioB / 100.0);
    assert EconomiaFioB(e, tusd, fioB, gd2) == k * (fioB / 100.0);
    assert EconomiaTUSD(e, tusd, fioB, gd2) == k * (1.0 - fioB / 100.0);
    DistributionSplit(e, tusd, fioB, gd2);
  }

  /** ICMS is ICMS_RATE on exactly the savings its policy names; exempt gives 0. */
  lemma IcmsOnInclusionSet(p: IcmsPolicy, fioB: real, tusd: real, te: real)
    ensures EconomiaICMS(p, fioB, tusd, te) == ICMS_RATE * BaseOf(IcmsBase(p), fioB, tusd, te)
    ensures p == IcmsIsento ==> EconomiaICMS(p, fioB, tusd, te) == 0.0
  {
  }

  /** PIS/COFINS is PIS_COFINS_RATE on exactly the savings its policy names; exempt gives 0. */
  lemma PisCofinsOnInclusionSet(p: PisCofinsPolicy, fioB: real, tusd: real, te: real)
    ensures EconomiaPISCOFINS(p, fioB, tusd, te)
         == PIS_COFINS_RATE * BaseOf(PisBase(p), fioB, tusd, te)
    ensures p == PisIsento ==> EconomiaPISCOFINS(p, fioB, tusd, te) == 0.0
  {
  }

  /** Taxing more components never gives a smaller base when the savings are non-negative. */
  lemma BaseMonotone(s1: set<Component>, s2: set<Component>, fioB: real, tusd: real, te: real)
    requires s1 <= s2
    requires fioB >= 0.0 && tusd >= 0.0 && te >= 0.0
    ensures 0.0 <= BaseOf(s1, fioB, tusd, te) <= BaseOf(s2, fioB, tusd, te)
  {
  }

  /** With non-negative savings, the ICMS saving grows along the chain of ICMS policies. */
  lemma IcmsOrderedByPolicy(fioB: real, tusd: real, te: real)
    requires fioB >= 0.0 && tusd >= 0.0 && te >= 0.0
    ensures EconomiaICMS(IcmsIsento, fioB, tusd, te) <= EconomiaICMS(IcmsFioB, fioB, tusd, te)
    ensures EconomiaICMS(IcmsFioB, fioB, tusd, te) <= EconomiaICMS(IcmsFioBTusd, fioB, tusd, te)
    ensures EconomiaICMS(IcmsFioBTusd, fioB, tusd, te) <= EconomiaICMS(IcmsFioBTusdTe, fioB, tusd, te)
  {
  }

  /** An absolute COSIP amount is capped both by itself and by COSIP_FACTOR per compensated kWh. */
  lemma CosipAbsoluteCapped(cosipRs: real, cosip: real, e: real)
    requires cosipRs > 0.0
    ensures EconomiaCOSIP(cosipRs, cosip, e) <= cosipRs
    ensures EconomiaCOSIP(cosipRs, cosip, e) <= COSIP_FACTOR * e
    ensures EconomiaCOSIP(cosipRs, cosip, e) == cosipRs
         || EconomiaCOSIP(cosipRs, cosip, e) == COSIP_FACTOR * e
  {
  }

  /** For in-range inputs the COSIP saving lies between 0 and COSIP_FACTOR per compensated kWh. */
  lemma CosipBounded(cosipRs: real, cosip: real, e: real)
    requires e >= 0.0 && cosipRs >= 0.0 && 0.0 <= cosip <= 100.0
    ensures 0.0 <= EconomiaCOSIP(cosipRs, cosip, e) <= COSIP_FACTOR * e
  {
  }

  /** The result's ICMS saving is ICMS_RATE on the result's savings that the policy names. */
  lemma CalculateIcms(inputs: CalculatorInputs, t: TarifaData)
    ensures var r := Calculate(inputs, t);
      && r.economiaICMS == ICMS_RATE * BaseOf(IcmsBase(inputs.icms), r.economiaFioB, r.economiaTUSD, r.economiaTE)
      && (inputs.icms == IcmsIsento ==> r.economiaICMS == 0.0)
  {
    var r := Calculate(inputs, t);
    IcmsOnInclusionSet(inputs.icms, r.economiaFioB, r.economiaTUSD, r.economiaTE);
  }

  /** The result's PIS/COFINS saving is PIS_COFINS_RATE on the result's savings that the policy names. */
  lemma CalculatePisCofins(inputs: CalculatorInputs, t: TarifaData)
    ensures var r := Calculate(inputs, t);
      && r.economiaPISCOFINS
         == PIS_COFINS_RATE * BaseOf(PisBase(inputs.pisconfins), r.economiaFioB, r.economiaTUSD, r.economiaTE)
      && (inputs.pisconfins == PisIsento ==> r.economiaPISCOFINS == 0.0)
  {
    var r := Calculate(inputs, t);
    PisCofinsOnInclusionSet(inputs.pisconfins, r.economiaFioB, r.economiaTUSD, r.economiaTE);
  }

  /**
   * The result's COSIP saving: with an absolute amount, the smaller of that
   * amount and COSIP_FACTOR per compensated kWh; for in-range inputs, between
   * 0 and COSIP_FACTOR per compensated kWh.
   */
  lemma CalculateCosip(inputs: CalculatorInputs, t: TarifaData)
    ensures var r := Calculate(inputs, t);
      var e := Compensated(inputs.injetado, inputs.consumo);
      && (inputs.cosip_rs > 0.0 ==>
            && r.economiaCOSIP <= inputs.cosip_rs
            && r.economiaCOSIP <= COSIP_FACTOR * e
            && (r.economiaCOSIP == inputs.cosip_rs || r.economiaCOSIP == COSIP_FACTOR * e))
      && (e >= 0.0 && inputs.cosip_rs >= 0.0 && 0.0 <= inputs.cosip <= 100.0 ==>
            0.0 <= r.economiaCOSIP <= COSIP_FACTOR * e)
  {
    var e := Compensated(inputs.injetado, inputs.consumo);
    if inputs.cosip_rs > 0.0 {
      CosipAbsoluteCapped(inputs.cosip_rs, inputs.cosip, e);
    }
    if e >= 0.0 && inputs.cosip_rs >= 0.0 && 0.0 <= inputs.cosip <= 100.0 {
      CosipBounded(inputs.cosip_rs, inputs.cosip, e);
    }
  }

  /** The total is the sum of the six components. */
  lemma TotalIsSumOfComponents(inputs: CalculatorInputs, t: TarifaData)
    ensures var r := Calculate(inputs, t);
      r.economiaTotal == r.economiaFioB + r.economiaTUSD + r.economiaTE
                       + r.economiaICMS + r.economiaPISCOFINS + r.economiaCOSIP
  {
  }

  /** No compensated energy (nothing injected or nothing consumed) means no saving at all. */
  lemma ZeroCompensationZeroSavings(inputs: CalculatorInputs, t: TarifaData)
    requires inputs.injetado >= 0.0 && inputs.consumo >= 0.0
    requires inputs.injetado == 0.0 || inputs.consumo == 0.0
    ensures var r := Calculate(inputs, t);
      && r.economiaFioB == 0.0 && r.economiaTUSD == 0.0 && r.economiaTE == 0.0
      && r.economiaICMS == 0.0 && r.economiaPISCOFINS == 0.0 && r.economiaCOSIP == 0.0
      && r.economiaTotal == 0.0
  {
    assert Compensated(inputs.injetado, inputs.consumo) == 0.0;
    TotalIsSumOfComponents(inputs, t);
  }

  /** For in-range inputs the three tariff savings are non-negative. */
  lemma TariffSavingsNonNegative(e: real, tusd: real, te: real, surcharge: real, fioB: real, gd2: real)
    requires e >= 0.0 && tusd >= 0.0 && te + surcharge >= 0.0 && gd2 >= 0.0 && 0.0 <= fioB <= 100.0
    ensures EconomiaFioB(e, tusd, fioB, gd2) >= 0.0
    ensures EconomiaTUSD(e, tusd, fioB, gd2) >= 0.0
    ensures EconomiaTE(e, te, surcharge, gd2) >= 0.0
  {
    DistributionSplitNonNegative(e, tusd, fioB, gd2);
    MulNonNegative(e, te + surcharge);
    MulNonNegative(e * (te + surcharge), gd2 / 100.0);
  }

  /** Taxes levied on non-negative savings are non-negative. */
  lemma TaxSavingsNonNegative(p: IcmsPolicy, q: PisCofinsPolicy, fioB: real, tusd: real, te: real)
    requires fioB >= 0.0 && tusd >= 0.0 && te >= 0.0
    ensures EconomiaICMS(p, fioB, tusd, te) >= 0.0
    ensures EconomiaPISCOFINS(q, fioB, tusd, te) >= 0.0
  {
    IcmsOnInclusionSet(p, fioB, tusd, te);
    PisCofinsOnInclusionSet(q, fioB, tusd, te);
    BaseMonotone({}, IcmsBase(p), fioB, tusd, te);
    BaseMonotone({}, PisBase(q), fioB, tusd, te);
  }

  /**
   * For in-range inputs and a table of non-negative rates every component,
   * and so the total, is non-negative.
   */
  lemma SavingsNonNegative(inputs: CalculatorInputs, t: TarifaData)
    requires inputs.injetado >= 0.0 && inputs.consumo >= 0.0
    requires 0.0 <= inputs.fioB <= 100.0 && inputs.gd2 >= 0.0
    requires 0.0 <= inputs.cosip <= 100.0 && inputs.cosip_rs >= 0.0
    requires t.tusd >= 0.0 && t.te + Surcharge(t.bandeiraTarifaria, inputs.bandeira) >= 0.0
    ensures var r := Calculate(inputs, t);
      && r.economiaFioB >= 0.0 && r.economiaTUSD >= 0.0 && r.economiaTE >= 0.0
      && r.economiaICMS >= 0.0 && r.economiaPISCOFINS >= 0.0 && r.economiaCOSIP >= 0.0
      && r.economiaTotal >= 0.0
  {
    var r := Calculate(inputs, t);
    var e := Compensated(inputs.injetado, inputs.consumo);
    var s := Surcharge(t.bandeiraTarifaria, inputs.bandeira);
    TariffSavingsNonNegative(e, t.tusd, t.te, s, inputs.fioB, inputs.gd2);
    assert r.economiaFioB == EconomiaFioB(e, t.tusd, inputs.fioB, inputs.gd2);
    assert r.economiaTUSD == EconomiaTUSD(e, t.tusd, inputs.fioB, inputs.gd2);
    assert r.economiaTE == EconomiaTE(e, t.te, s, inputs.gd2);
    TaxSavingsNonNegative(inputs.icms, inputs.pisconfins, r.economiaFioB, r.economiaTUSD, r.economiaTE);
    CosipBounded(inputs.cosip_rs, inputs.cosip, e);
    TotalIsSumOfComponents(inputs, t);
  }

  /** With the catalog tariffs, in-range inputs give non-negative savings. */
  lemma ComputeNonNegative(inputs: CalculatorInputs, id: string, timestamp: nat)
    requires inputs.injetado >= 0.0 && inputs.consumo >= 0.0
    requires 0.0 <= inputs.fioB <= 100.0 && inputs.gd2 >= 0.0
    requires 0.0 <= inputs.cosip <= 100.0 && inputs.cosip_rs >= 0.0
    ensures Compute(inputs, id, timestamp).results.economiaTotal >= 0.0
  {
    SavingsNonNegative(inputs, TARIFA);
  }

  /** `estado`, `fornecimento`, `pis` and `confins` do not affect the savings. */
  lemma EngineIgnoresUnreadFields(a: CalculatorInputs, b: CalculatorInputs, t: TarifaData)
    requires a.(estado := b.estado, fornecimento := b.fornecimento, pis := b.pis, confins := b.confins) == b
    ensures Calculate(a, t) == Calculate(b, t)
  {
  }

  /** The default inputs with the catalog give the reference values, in exact arithmetic. */
  lemma ReferenceScenario(id: string, timestamp: nat)
    ensures var r := Compute(CalculatorState.DEFAULT_INPUTS, id, timestamp);
      && r.inputs == CalculatorState.DEFAULT_INPUTS
      && r.results.economiaFioB == 34.695
      && r.results.economiaTUSD == 42.405
      && r.results.economiaTE == 164.595
      && r.results.economiaICMS == 19.275
      && r.results.economiaPISCOFINS == 22.3567875
      && r.results.economiaCOSIP == 3.0
      && r.results.economiaTotal == 286.3267875
  {
  }
}
