/**
  The car brands offered in the car settings, each with the display string
  that is also its stored raw value and its id, and the decoding of a stored
  string back into a brand.
 */
module CarBrands {

  import opened Options

  datatype CarBrand =
    | Audi | BMW | Chevrolet | Ford | Honda | Hyundai | Kia
    | Mercedes | Nissan | Subaru | Tesla | Toyota | Volkswagen

  /** Every brand, in declaration order (the order the brand menu lists them). */
  const AllCases: seq<CarBrand> :=
    [Audi, BMW, Chevrolet, Ford, Honda, Hyundai, Kia, Mercedes, Nissan, Subaru, Tesla, Toyota, Volkswagen]

  /** The brand's position in declaration order. */
  function Ordinal(b: CarBrand): (r: nat)
    ensures r < |AllCases| && AllCases[r] == b
  {
    match b
    case Audi => 0
    case BMW => 1
    case Chevrolet => 2
    case Ford => 3
    case Honda => 4
    case Hyundai => 5
    case Kia => 6
    case Mercedes => 7
    case Nissan => 8
    case Subaru => 9
    case Tesla => 10
    case Toyota => 11
    case Volkswagen => 12
  }

  function RawValue(b: CarBrand): string
  {
    match b
    case Audi => "Audi"
    case BMW => "BMW"
    case Chevrolet => "Chevrolet"
    case Ford => "Ford"
    case Honda => "Honda"
    case Hyundai => "Hyundai"
    case Kia => "Kia"
    case Mercedes => "Mercedes-Benz"
    case Nissan => "Nissan"
    case Subaru => "Subaru"
    case Tesla => "Tesla"
    case Toyota => "Toyota"
    case Volkswagen => "Volkswagen"
  }

  /** The brand's identity, which is its raw value. */
  function Id(b: CarBrand): (r: string)
    ensures r == RawValue(b)
    ensures forall c :: RawValue(c) == r ==> c == b
  {
    RawValue(b)
  }

  /** The brand whose raw value is exactly `s`, compared case-sensitively. */
  function FromRawValue(s: string): (r: Option<CarBrand>)
    ensures r.Some? ==> RawValue(r.value) == s
    ensures r.None? <==> forall b :: RawValue(b) != s
  {
    if s == "Audi" then Some(Audi)
    else if s == "BMW" then Some(BMW)
    else if s == "Chevrolet" then Some(Chevrolet)
    else if s == "Ford" then Some(Ford)
    else if s == "Honda" then Some(Honda)
    else if s == "Hyundai" then Some(Hyundai)
    else if s == "Kia" then Some(Kia)
    else if s == "Mercedes-Benz" then Some(Mercedes)
    else if s == "Nissan" then Some(Nissan)
    else if s == "Subaru" then Some(Subaru)
    else if s == "Tesla" then Some(Tesla)
    else if s == "Toyota" then Some(Toyota)
    else if s == "Volkswagen" then Some(Volkswagen)
    else None
  }

  /** There are thirteen brands, each listed once. */
  lemma AllCasesComplete()
    ensures |AllCases| == 13
    ensures forall b :: b in AllCases
    ensures forall i, j :: 0 <= i < j < |AllCases| ==> AllCases[i] != AllCases[j]
  {
    forall b ensures b in AllCases {
      assert AllCases[Ordinal(b)] == b;
    }
  }

  /** No two brands share a raw value (and hence an id). */
  lemma RawValuesDistinct(a: CarBrand, b: CarBrand)
    requires RawValue(a) == RawValue(b)
    ensures a == b
  {
  }

  /** Decoding a brand's raw value gives the brand back. */
  lemma DecodeEncode(b: CarBrand)
    ensures FromRawValue(RawValue(b)) == Some(b)
  {
  }

  /** Decoding is case-sensitive: a lower-case spelling is not a brand. */
  lemma LowerCaseIsNotABrand()
    ensures FromRawValue("bmw") == None
    ensures FromRawValue("audi") == None
    ensures FromRawValue("Mercedes") == None
  {
  }

  /**
    The brand the car settings show after loading the user's stored brand
    string: the decoded brand when the string is present and decodes, the
    previous choice otherwise.
   */
  function LoadedBrand(current: CarBrand, stored: Option<string>): (r: CarBrand)
    ensures stored.Some? && FromRawValue(stored.value).Some? ==> RawValue(r) == stored.value
    ensures stored.None? || (forall b :: RawValue(b) != stored.value) ==> r == current
  {
    match stored
    case None => current
    case Some(s) =>
      match FromRawValue(s)
      case Some(matched) => matched
      case None => current
  }

  /** Saving a brand and loading it back restores it, whatever was shown before. */
  lemma SaveThenLoad(current: CarBrand, saved: CarBrand)
    ensures LoadedBrand(current, Some(RawValue(saved))) == saved
  {
    DecodeEncode(saved);
  }
}
