/**
 * The calculator's state holder: the current inputs, the history of
 * results (most recent first, at most HISTORY_CAPACITY after a publish) and
 * the result on display. The history operations are pure functions on
 * sequences; the class updates its fields with them.
 */
module CalculatorState {
  import opened Wrappers
  import opened CalculatorTypes
  import opened Calculations

  /** Number of results a publish keeps. */
  const HISTORY_CAPACITY: nat := 10

  /** The inputs the calculator starts with. */
  const DEFAULT_INPUTS: CalculatorInputs :=
    CalculatorInputs(
      estado := "piaui",
      fornecimento := Mono,
      gd2 := 100.0,
      fioB := 45.0,
      icms := IcmsFioBTusd,
      pisconfins := PisFioBTusdTe,
      cosip := 12.0,
      injetado := 500.0,
      consumo := 500.0,
      cosip_rs := 0.0,
      pis := 0.0,
      confins := 0.0,
      bandeira := Vermelha1)

  // ---------------------------------------------------------------------
  // Input fields

  /** The names of the input fields. */
  datatype Field =
    | EstadoField | FornecimentoField | Gd2Field | FioBField | IcmsField | PisConfinsField
    | CosipField | InjetadoField | ConsumoField | CosipRsField | PisField | ConfinsField
    | BandeiraField

  /** A value of some input field. */
  datatype FieldValue =
    | Text(s: string)
    | Supply(f: Fornecimento)
    | Number(x: real)
    | Icms(p: IcmsPolicy)
    | PisCofins(q: PisCofinsPolicy)
    | Flag(b: Bandeira)

  /** `v` has the type that field `f` declares. */
  predicate Fits(f: Field, v: FieldValue)
  {
    match f
    case EstadoField => v.Text?
    case FornecimentoField => v.Supply?
    case IcmsField => v.Icms?
    case PisConfinsField => v.PisCofins?
    case BandeiraField => v.Flag?
    case _ => v.Number?
  }

  /** The value of field `f` of `i`. */
  function Get(i: CalculatorInputs, f: Field): (v: FieldValue)
    ensures Fits(f, v)
  {
    match f
    case EstadoField => Text(i.estado)
    case FornecimentoField => Supply(i.fornecimento)
    case Gd2Field => Number(i.gd2)
    case FioBField => Number(i.fioB)
    case IcmsField => Icms(i.icms)
    case PisConfinsField => PisCofins(i.pisconfins)
    case CosipField => Number(i.cosip)
    case InjetadoField => Number(i.injetado)
    case ConsumoField => Number(i.consumo)
    case CosipRsField => Number(i.cosip_rs)
    case PisField => Number(i.pis)
    case ConfinsField => Number(i.confins)
    case BandeiraField => Flag(i.bandeira)
  }

  /** `i` with field `f` replaced by `v`. */
  function WithField(i: CalculatorInputs, f: Field, v: FieldValue): CalculatorInputs
    requires Fits(f, v)
  {
    match f
    case EstadoField => i.(estado := v.s)
    case FornecimentoField => i.(fornecimento := v.f)
    case Gd2Field => i.(gd2 := v.x)
    case FioBField => i.(fioB := v.x)
    case IcmsField => i.(icms := v.p)
    case PisConfinsField => i.(pisconfins := v.q)
    case CosipField => i.(cosip := v.x)
    case InjetadoField => i.(injetado := v.x)
    case ConsumoField => i.(consumo := v.x)
    case CosipRsField => i.(cosip_rs := v.x)
    case PisField => i.(pis := v.x)
    case ConfinsField => i.(confins := v.x)
    case BandeiraField => i.(bandeira := v.b)
  }

  /** Replacing a field sets exactly that field; every other field keeps its value. */
  lemma WithFieldChangesOnlyThatField(i: CalculatorInputs, f: Field, v: FieldValue)
    requires Fits(f, v)
    ensures Get(WithField(i, f, v), f) == v
    ensures forall g :: g != f ==> Get(WithField(i, f, v), g) == Get(i, g)
  {
  }

  /** Two inputs with the same value in every field are the same inputs. */
  lemma FieldsDetermineInputs(a: CalculatorInputs, b: CalculatorInputs)
    requires forall g :: Get(a, g) == Get(b, g)
    ensures a == b
  {
    assert Get(a, EstadoField) == Get(b, EstadoField);
    assert Get(a, FornecimentoField) == Get(b, FornecimentoField);
    assert Get(a, Gd2Field) == Get(b, Gd2Field);
    assert Get(a, FioBField) == Get(b, FioBField);
    assert Get(a, IcmsField) == Get(b, IcmsField);
    assert Get(a, PisConfinsField) == Get(b, PisConfinsField);
    assert Get(a, CosipField) == Get(b, CosipField);
    assert Get(a, InjetadoField) == Get(b, InjetadoField);
    assert Get(a, ConsumoField) == Get(b, ConsumoField);
    assert Get(a, CosipRsField) == Get(b, CosipRsField);
    assert Get(a, PisField) == Get(b, PisField);
    assert Get(a, ConfinsField) == Get(b, ConfinsField);
    assert Get(a, BandeiraField) == Get(b, BandeiraField);
  }

  /**
   * So the replaced inputs are the only inputs that agree with `i` off `f`
   * and hold `v` at `f`.
   */
  lemma WithFieldIsUnique(i: CalculatorInputs, f: Field, v: FieldValue, j: CalculatorInputs)
    requires Fits(f, v)
    requires Get(j, f) == v
    requires forall g :: g != f ==> Get(j, g) == Get(i, g)
    ensures j == WithField(i, f, v)
  {
    WithFieldChangesOnlyThatField(i, f, v);
    FieldsDetermineInputs(j, WithField(i, f, v));
  }

  // ---------------------------------------------------------------------
  // History

  /**
   * Publishing `r`: it goes in front, followed by the first
   * HISTORY_CAPACITY - 1 entries of the old history.
   */
  function PushHistory(h: seq<CalculationResult>, r: CalculationResult): (h': seq<CalculationResult>)
    ensures |h'| == if |h| < HISTORY_CAPACITY then |h| + 1 else HISTORY_CAPACITY
    ensures h'[0] == r
    ensures h'[1..] == h[..|h'| - 1]
  {
    [r] + h[..if |h| < HISTORY_CAPACITY - 1 then |h| else HISTORY_CAPACITY - 1]
  }

  /** The first HISTORY_CAPACITY entries of `s`. */
  function Newest(s: seq<CalculationResult>): (t: seq<CalculationResult>)
  {
    if |s| <= HISTORY_CAPACITY then s else s[..HISTORY_CAPACITY]
  }

  function Reverse<T>(s: seq<T>): (r: seq<T>)
    ensures |r| == |s|
  {
    if s == [] then [] else Reverse(s[1..]) + [s[0]]
  }

  /** Publishing the results of `rs` one after the other, first to last. */
  function PushAll(h: seq<CalculationResult>, rs: seq<CalculationResult>): seq<CalculationResult>
    decreases rs
  {
    if rs == [] then h else PushAll(PushHistory(h, rs[0]), rs[1..])
  }

  /** Publishing onto a full history drops exactly its last (oldest) entry. */
  lemma PushFullDropsOldest(h: seq<CalculationResult>, r: CalculationResult)
    requires |h| == HISTORY_CAPACITY
    ensures PushHistory(h, r) == [r] + h[..HISTORY_CAPACITY - 1]
    ensures multiset(PushHistory(h, r)) + multiset{h[HISTORY_CAPACITY - 1]} == multiset(h) + multiset{r}
  {
    assert h == h[..HISTORY_CAPACITY - 1] + [h[HISTORY_CAPACITY - 1]];
  }

  /** One publish keeps the newest HISTORY_CAPACITY entries of the result followed by the old history. */
  lemma PushIsNewest(h: seq<CalculationResult>, r: CalculationResult)
    ensures PushHistory(h, r) == Newest([r] + h)
  {
    if |h| >= HISTORY_CAPACITY {
      assert ([r] + h)[..HISTORY_CAPACITY] == [r] + h[..HISTORY_CAPACITY - 1];
    }
  }

  lemma NewestAbsorbs(a: seq<CalculationResult>, b: seq<CalculationResult>)
    ensures Newest(a + Newest(b)) == Newest(a + b)
  {
    if |b| > HISTORY_CAPACITY {
      assert (a + b[..HISTORY_CAPACITY])[..HISTORY_CAPACITY] == (a + b)[..HISTORY_CAPACITY];
    }
  }

  /**
   * Publishing a sequence of results onto a history of at most
   * HISTORY_CAPACITY entries keeps the newest HISTORY_CAPACITY of all of
   * them, most recent first.
   */
  lemma {:induction false} PushAllKeepsNewest(h: seq<CalculationResult>, rs: seq<CalculationResult>)
    requires |h| <= HISTORY_CAPACITY
    ensures PushAll(h, rs) == Newest(Reverse(rs) + h)
    decreases rs
  {
    if rs != [] {
      var x, rest := rs[0], rs[1..];
      var h1 := PushHistory(h, x);
      calc {
        PushAll(h, rs);
        PushAll(h1, rest);
        { PushAllKeepsNewest(h1, rest); }
        Newest(Reverse(rest) + h1);
        { PushIsNewest(h, x); }
        Newest(Reverse(rest) + Newest([x] + h));
        { NewestAbsorbs(Reverse(rest), [x] + h); }
        Newest(Reverse(rest) + ([x] + h));
        { assert Reverse(rs) == Reverse(rest) + [x];
          assert Reverse(rest) + ([x] + h) == Reverse(rs) + h; }
        Newest(Reverse(rs) + h);
      }
    }
  }

  /** Eleven publishes onto an empty history keep ten entries: all but the first (oldest) one. */
  lemma ElevenPublishesKeepTen(rs: seq<CalculationResult>)
    requires |rs| == HISTORY_CAPACITY + 1
    ensures |PushAll([], rs)| == HISTORY_CAPACITY
    ensures PushAll([], rs) == Reverse(rs[1..])
  {
    PushAllKeepsNewest([], rs);
    assert Reverse(rs) + [] == Reverse(rs[1..]) + [rs[0]];
  }

  /** The history without the entries whose id is `id`. */
  function RemoveId(h: seq<CalculationResult>, id: string): (r: seq<CalculationResult>)
    ensures |r| <= |h|
  {
    if h == [] then []
    else (if h[0].id != id then [h[0]] else []) + RemoveId(h[1..], id)
  }

  /** An entry survives deletion exactly when it was there with a different id. */
  lemma {:induction false} RemoveIdMembers(h: seq<CalculationResult>, id: string)
    ensures forall x :: x in RemoveId(h, id) <==> x in h && x.id != id
  {
    if h != [] {
      RemoveIdMembers(h[1..], id);
      assert h == [h[0]] + h[1..];
    }
  }

  /** Removing distributes over concatenation, so the kept entries stay in their order. */
  lemma {:induction false} RemoveIdAppend(a: seq<CalculationResult>, b: seq<CalculationResult>, id: string)
    ensures RemoveId(a + b, id) == RemoveId(a, id) + RemoveId(b, id)
  {
    if a != [] {
      var keep := if a[0].id != id then [a[0]] else [];
      calc {
        RemoveId(a + b, id);
        { assert (a + b)[0] == a[0] && (a + b)[1..] == a[1..] + b; }
        keep + RemoveId(a[1..] + b, id);
        { RemoveIdAppend(a[1..], b, id); }
        keep + (RemoveId(a[1..], id) + RemoveId(b, id));
        (keep + RemoveId(a[1..], id)) + RemoveId(b, id);
        RemoveId(a, id) + RemoveId(b, id);
      }
    } else {
      assert a + b == b;
    }
  }

  /** Removing an id that no entry carries changes nothing. */
  lemma {:induction false} RemoveIdAbsent(h: seq<CalculationResult>, id: string)
    requires forall x :: x in h ==> x.id != id
    ensures RemoveId(h, id) == h
  {
    if h != [] {
      RemoveIdAbsent(h[1..], id);
      assert h == [h[0]] + h[1..];
    }
  }

  /** Removing twice is removing once. */
  lemma RemoveIdIdempotent(h: seq<CalculationResult>, id: string)
    ensures RemoveId(RemoveId(h, id), id) == RemoveId(h, id)
  {
    RemoveIdMembers(h, id);
    RemoveIdAbsent(RemoveId(h, id), id);
  }

  // ---------------------------------------------------------------------
  // The state holder

  class Calculator {
    var inputs: CalculatorInputs
    var history: seq<CalculationResult>
    var currentResult: Option<CalculationResult>

    /** Starts from the default inputs and the stored history, with no result on display. */
    constructor (stored: seq<CalculationResult>)
      ensures inputs == DEFAULT_INPUTS
      ensures history == stored
      ensures currentResult == None
    {
      inputs := DEFAULT_INPUTS;
      history := stored;
      currentResult := None;
    }

    /** Replaces one input field. */
    method HandleInputChange(f: Field, v: FieldValue)
      requires Fits(f, v)
      modifies this
      ensures inputs == WithField(old(inputs), f, v)
      ensures Get(inputs, f) == v
      ensures forall g :: g != f ==> Get(inputs, g) == Get(old(inputs), g)
      ensures history == old(history) && currentResult == old(currentResult)
    {
      WithFieldChangesOnlyThatField(inputs, f, v);
      inputs := WithField(inputs, f, v);
    }

    /**
     * Publishes a calculation outcome: a result becomes the current one and
     * is pushed onto the history; no result changes nothing.
     */
    method Publish(result: Option<CalculationResult>)
      modifies this
      ensures inputs == old(inputs)
      ensures result.None? ==> history == old(history) && currentResult == old(currentResult)
      ensures result.Some? ==>
        currentResult == result && history == PushHistory(old(history), result.value)
      ensures result.Some? ==> |history| <= HISTORY_CAPACITY && history[0] == result.value
    {
      if result.Some? {
        currentResult := result;
        history := PushHistory(history, result.value);
      }
    }

    /** Computes a result from the current inputs and publishes it. */
    method HandleCalculate(id: string, timestamp: nat)
      modifies this
      ensures currentResult == Some(Compute(old(inputs), id, timestamp))
      ensures history == PushHistory(old(history), Compute(old(inputs), id, timestamp))
      ensures inputs == old(inputs)
    {
      var result := Compute(inputs, id, timestamp);
      Publish(Some(result));
    }

    /** Deletes every history entry whose id is `id`. */
    method HandleDeleteHistory(id: string)
      modifies this
      ensures history == RemoveId(old(history), id)
      ensures forall x :: x in history <==> x in old(history) && x.id != id
      ensures inputs == old(inputs) && currentResult == old(currentResult)
    {
      RemoveIdMembers(history, id);
      history := RemoveId(history, id);
    }

    /** Shows a stored result again and restores the inputs it was computed from. */
    method HandleLoadHistory(result: CalculationResult)
      modifies this
      ensures inputs == result.inputs
      ensures currentResult == Some(result)
      ensures history == old(history)
    {
      inputs := result.inputs;
      currentResult := Some(result);
    }
  }
}
