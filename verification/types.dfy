/** Conventional optional value; stands for the source's `T | null`. */
module Wrappers {
  datatype Option<+T> = None | Some(value: T)
}

/**
 * The calculator's data model: the closed enumerations, the input record,
 * the shape of the tariff table and the shape of a calculation result.
 * Every enumeration is a closed datatype, so "exactly one of" holds by
 * construction and every `match` over it is exhaustive.
 */
module CalculatorTypes {

  /** Supply type; carried in the inputs, never read by the engine. */
  datatype Fornecimento = Mono | Tri | Bi

  /** Which tariff savings the ICMS tax is levied on. */
  datatype IcmsPolicy = IcmsFioBTusd | IcmsFioBTusdTe | IcmsFioB | IcmsIsento

  /** Which tariff savings PIS/COFINS is levied on (there is no Fio B + TUSD case). */
  datatype PisCofinsPolicy = PisFioBTusdTe | PisFioB | PisIsento

  /** Monthly tariff flag. */
  datatype Bandeira = Verde | Amarela | Vermelha1 | Vermelha2 | Preta

  /** The calculator's inputs. Percentages are in percent (0..100), energies in kWh. */
  datatype CalculatorInputs = CalculatorInputs(
    estado: string,
    fornecimento: Fornecimento,
    gd2: real,
    fioB: real,
    icms: IcmsPolicy,
    pisconfins: PisCofinsPolicy,
    cosip: real,
    injetado: real,
    consumo: real,
    cosip_rs: real,
    pis: real,
    confins: real,
    bandeira: Bandeira)

  /** One surcharge per tariff flag, in currency per kWh. */
  datatype BandeiraTarifaria = BandeiraTarifaria(
    verde: real,
    amarela: real,
    vermelha1: real,
    vermelha2: real,
    preta: real)

  /** Unit rates (currency per kWh) and the flag surcharges. */
  datatype TarifaData = TarifaData(tusd: real, te: real, bandeiraTarifaria: BandeiraTarifaria)

  /**
   * The surcharge of a flag. The table has an entry for every flag, so the
   * lookup is total.
   */
  function Surcharge(t: BandeiraTarifaria, b: Bandeira): real
  {
    match b
    case Verde => t.verde
    case Amarela => t.amarela
    case Vermelha1 => t.vermelha1
    case Vermelha2 => t.vermelha2
    case Preta => t.preta
  }

  /**
   * The description of a line item. The source formats the interpolated
   * numbers into a string; the model keeps the numbers and the fixed texts.
   */
  datatype Descricao =
    | EnergyRatePercent(kwh: real, rate: real, percent: real)  // "<kwh> kWh x R$ <rate> x <percent>%"
    | EnergyRate(kwh: real, rate: real)                        // "<kwh> kWh x R$ <rate>"
    | Fixed(text: string)
    | LightingPercent(percent: real)                           // "<percent>% sobre iluminacao publica"

  /** One line of the savings breakdown. */
  datatype Detalhe = Detalhe(item: string, valor: real, descricao: Descricao)

  /** The seven numeric components and the line items. */
  datatype Economia = Economia(
    economiaTotal: real,
    economiaFioB: real,
    economiaTUSD: real,
    economiaTE: real,
    economiaICMS: real,
    economiaPISCOFINS: real,
    economiaCOSIP: real,
    detalhes: seq<Detalhe>)

  /** A calculation result; `timestamp` is milliseconds since the epoch. */
  datatype CalculationResult = CalculationResult(
    id: string,
    timestamp: nat,
    inputs: CalculatorInputs,
    results: Economia)
}
