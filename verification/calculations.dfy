/**
 * The tariff savings engine: from the inputs and the tariff catalog it
 * computes the compensated energy, the three tariff savings (Fio B, the
 * remaining TUSD, TE plus the flag surcharge), the two tax savings (ICMS,
 * PIS/COFINS) on a base chosen by policy, the COSIP public-lighting saving,
 * the total and six line items. Amounts are exact reals.
 */
module Calculations {
  import opened CalculatorTypes

  /** The tariff catalog: TUSD and TE in currency per kWh, one surcharge per flag. */
  const TARIFA: TarifaData :=
    TarifaData(0.15420, 0.28750, BandeiraTarifaria(0.0, 0.01874, 0.04169, 0.06243, 0.08000))

  /** ICMS rate applied to its base. */
  const ICMS_RATE: real := 0.25
  /** PIS/COFINS rate applied to its base. */
  const PIS_COFINS_RATE: real := 0.0925
  /** Ratio bounding the COSIP credit relative to the compensated energy. */
  const COSIP_FACTOR: real := 0.05

  function Min(a: real, b: real): real
  {
    if a < b then a else b
  }

  /** Compensated energy: the consumer is credited for no more than it consumed. */
  function Compensated(injetado: real, consumo: real): (e: real)
    ensures e <= injetado && e <= consumo
    ensures e == injetado || e == consumo
  {
    Min(injetado, consumo)
  }

  /** Saving on the Fio B share of the distribution tariff. */
  function EconomiaFioB(e: real, tusd: real, fioB: real, gd2: real): real
  {
    e * tusd * (fioB / 100.0) * (gd2 / 100.0)
  }

  /** Saving on the energy tariff plus the flag surcharge. */
  function EconomiaTE(e: real, te: real, bandeiraTarifa: real, gd2: real): real
  {
    e * (te + bandeiraTarifa) * (gd2 / 100.0)
  }

  /** Saving on the rest of the distribution tariff (the share that is not Fio B). */
  function EconomiaTUSD(e: real, tusd: real, fioB: real, gd2: real): real
  {
    e * tusd * (1.0 - fioB / 100.0) * (gd2 / 100.0)
  }

  /** ICMS saving: 0 when exempt, otherwise ICMS_RATE on the base the policy selects. */
  function EconomiaICMS(p: IcmsPolicy, fioB: real, tusd: real, te: real): real
  {
    if p == IcmsIsento then 0.0
    else
      var base :=
        if p == IcmsFioB then fioB
        else if p == IcmsFioBTusd then fioB + tusd
        else fioB + tusd + te;
      base * ICMS_RATE
  }

  /** PIS/COFINS saving: 0 when exempt, otherwise PIS_COFINS_RATE on the selected base. */
  function EconomiaPISCOFINS(p: PisCofinsPolicy, fioB: real, tusd: real, te: real): real
  {
    if p == PisIsento then 0.0
    else
      var base := if p == PisFioB then fioB else fioB + tusd + te;
      base * PIS_COFINS_RATE
  }

  /**
   * COSIP saving: an absolute amount, when one is given, capped at
   * COSIP_FACTOR per compensated kWh; otherwise a percentage of that cap.
   */
  function EconomiaCOSIP(cosipRs: real, cosip: real, e: real): real
  {
    if cosipRs > 0.0 then Min(cosipRs, e * COSIP_FACTOR)
    else e * (cosip / 100.0) * COSIP_FACTOR
  }

  /** Sum of the `valor` fields of the line items. */
  function SumValor(ds: seq<Detalhe>): real
  {
    if ds == [] then 0.0 else ds[0].valor + SumValor(ds[1..])
  }

  /**
   * The savings breakdown for `inputs` under the tariff table `t`.
   * `estado`, `fornecimento`, `pis` and `confins` are not read.
   */
  function Calculate(inputs: CalculatorInputs, t: TarifaData): (r: Economia)
    ensures |r.detalhes| == 6
    ensures r.detalhes[0].item == "Fio B (TUSD)" && r.detalhes[0].valor == r.economiaFioB
    ensures r.detalhes[1].item == "TUSD (restante)" && r.detalhes[1].valor == r.economiaTUSD
    ensures r.detalhes[2].item == "Tarifa de Energia" && r.detalhes[2].valor == r.economiaTE
    ensures r.detalhes[3].item == "ICMS" && r.detalhes[3].valor == r.economiaICMS
    ensures r.detalhes[4].item == "PIS/COFINS" && r.detalhes[4].valor == r.economiaPISCOFINS
    ensures r.detalhes[5].item == "COSIP" && r.detalhes[5].valor == r.economiaCOSIP
    ensures SumValor(r.detalhes) == r.economiaTotal
  {
    var tusd := t.tusd;
    var te := t.te;
    var bandeiraTarifa := Surcharge(t.bandeiraTarifaria, inputs.bandeira);
    var e := Compensated(inputs.injetado, inputs.consumo);
    var fioB := EconomiaFioB(e, tusd, inputs.fioB, inputs.gd2);
    var teSaving := EconomiaTE(e, te, bandeiraTarifa, inputs.gd2);
    var tusdSaving := EconomiaTUSD(e, tusd, inputs.fioB, inputs.gd2);
    var icms := EconomiaICMS(inputs.icms, fioB, tusdSaving, teSaving);
    var pisCofins := EconomiaPISCOFINS(inputs.pisconfins, fioB, tusdSaving, teSaving);
    var cosip := EconomiaCOSIP(inputs.cosip_rs, inputs.cosip, e);
    var total := fioB + teSaving + tusdSaving + icms + pisCofins + cosip;
    var detalhes := [
      Detalhe("Fio B (TUSD)", fioB, EnergyRatePercent(e, tusd, inputs.fioB)),
      Detalhe("TUSD (restante)", tusdSaving, EnergyRatePercent(e, tusd, 100.0 - inputs.fioB)),
      Detalhe("Tarifa de Energia", teSaving, EnergyRate(e, te + bandeiraTarifa)),
      Detalhe("ICMS", icms,
        if inputs.icms == IcmsIsento then Fixed("Isento") else Fixed("Sobre componentes aplicáveis")),
      Detalhe("PIS/COFINS", pisCofins,
        if inputs.pisconfins == PisIsento then Fixed("Isento") else Fixed("9,25% sobre componentes aplicáveis")),
      Detalhe("COSIP", cosip, LightingPercent(inputs.cosip))
    ];
    SumValorOfSix(detalhes);
    Economia(total, fioB, tusdSaving, teSaving, icms, pisCofins, cosip, detalhes)
  }

  lemma SumValorOfSix(ds: seq<Detalhe>)
    requires |ds| == 6
    ensures SumValor(ds) ==
      ds[0].valor + ds[1].valor + ds[2].valor + ds[3].valor + ds[4].valor + ds[5].valor
  {
    assert ds[5..][1..] == [];
    assert SumValor(ds[5..]) == ds[5].valor;
    assert SumValor(ds[4..]) == ds[4].valor + SumValor(ds[5..]) by { assert ds[4..][1..] == ds[5..]; }
    assert SumValor(ds[3..]) == ds[3].valor + SumValor(ds[4..]) by { assert ds[3..][1..] == ds[4..]; }
    assert SumValor(ds[2..]) == ds[2].valor + SumValor(ds[3..]) by { assert ds[2..][1..] == ds[3..]; }
    assert SumValor(ds[1..]) == ds[1].valor + SumValor(ds[2..]) by { assert ds[1..][1..] == ds[2..]; }
  }

  /**
   * A calculation result for `inputs` with the catalog tariffs; `id` and
   * `timestamp` are supplied by the caller.
   */
  function Compute(inputs: CalculatorInputs, id: string, timestamp: nat): (r: CalculationResult)
    ensures r.id == id && r.timestamp == timestamp
    ensures r.inputs == inputs
    ensures |r.results.detalhes| == 6
    ensures SumValor(r.results.detalhes) == r.results.economiaTotal
  {
    CalculationResult(id, timestamp, inputs, Calculate(inputs, TARIFA))
  }
}
