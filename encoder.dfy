/**
 * The inference-time feature encoder of the house price form: the one-hot
 * flags of the ocean-proximity selector and the 12-entry feature row that is
 * handed to the scaler and the regression model.
 */
module Encoder {
  import opened Wrappers

  /** The five ocean-proximity values, in the order the selector lists them. */
  datatype Ocean = HourFromOcean | Inland | Island | NearBay | NearOcean

  /** The selector's option strings, in display order; the first is the default. */
  const CHOICES: seq<string> := ["<1H OCEAN", "INLAND", "ISLAND", "NEAR BAY", "NEAR OCEAN"]

  /** The levels that get a flag column: every choice but the first (the reference level). */
  const DUMMY_LEVELS: seq<string> := CHOICES[1..]

  /** The option string the selector returns for each value. */
  function Label(o: Ocean): (s: string)
    ensures s in CHOICES
  {
    match o
    case HourFromOcean => "<1H OCEAN"
    case Inland => "INLAND"
    case Island => "ISLAND"
    case NearBay => "NEAR BAY"
    case NearOcean => "NEAR OCEAN"
  }

  /** Every option string is the label of exactly one value. */
  lemma LabelsAreChoices()
    ensures forall s :: s in CHOICES <==> exists o :: Label(o) == s
    ensures forall o1, o2 :: Label(o1) == Label(o2) ==> o1 == o2
  {
    forall s | s in CHOICES ensures exists o :: Label(o) == s {
      if s == CHOICES[0] {
        assert Label(HourFromOcean) == s;
      } else if s == CHOICES[1] {
        assert Label(Inland) == s;
      } else if s == CHOICES[2] {
        assert Label(Island) == s;
      } else if s == CHOICES[3] {
        assert Label(NearBay) == s;
      } else {
        assert Label(NearOcean) == s;
      }
    }
    forall o1, o2 | Label(o1) == Label(o2) ensures o1 == o2 {
      if o1 != o2 {
        LabelsDiffer(o1, o2);
      }
    }
  }

  /** Distinct option strings differ in length or else in their second character. */
  lemma LabelsDiffer(o1: Ocean, o2: Ocean)
    requires o1 != o2
    ensures Label(o1) != Label(o2)
  {
  }

  /** One `1 if ocean == level else 0` line of the form. */
  function Indicator(ocean: string, level: string): int
  {
    if ocean == level then 1 else 0
  }

  /**
   * The four flags INLAND, ISLAND, NEAR_BAY, NEAR_OCEAN computed from the
   * selected string. Each is 0 or 1, and flag k is 1 exactly when the
   * selection is the k-th non-reference level.
   */
  function OceanFlags(ocean: string): (f: seq<int>)
    ensures |f| == 4
    ensures forall k :: 0 <= k < 4 ==> f[k] == 0 || f[k] == 1
    ensures forall k :: 0 <= k < 4 ==> (f[k] == 1 <==> ocean == DUMMY_LEVELS[k])
  {
    [Indicator(ocean, "INLAND"), Indicator(ocean, "ISLAND"),
     Indicator(ocean, "NEAR BAY"), Indicator(ocean, "NEAR OCEAN")]
  }

  /** The flags of a value the selector can return. */
  function Flags(o: Ocean): seq<int>
  {
    OceanFlags(Label(o))
  }

  /** The number of flags that are set. */
  function FlagSum(f: seq<int>): int
  {
    if f == [] then 0 else f[0] + FlagSum(f[1..])
  }

  /** Whatever string is selected, no two flags are 1 at once. */
  lemma AtMostOneFlag(ocean: string)
    ensures forall j, k :: 0 <= j < k < 4 ==> !(OceanFlags(ocean)[j] == 1 && OceanFlags(ocean)[k] == 1)
  {
  }

  /**
   * The reference level `<1H OCEAN` is the only value encoded as all zeros;
   * every other value sets exactly one flag.
   */
  lemma OneHot(o: Ocean)
    ensures Flags(o) == [0, 0, 0, 0] <==> o == HourFromOcean
    ensures FlagSum(Flags(o)) == if o == HourFromOcean then 0 else 1
  {
  }

  /** A string the selector does not offer falls through every test and reads as the reference level. */
  lemma UnknownLevelIsReference(ocean: string)
    requires ocean !in CHOICES
    ensures OceanFlags(ocean) == Flags(HourFromOcean)
  {
  }

  /** Recovers the selected value from the four flags; None for a pattern no value produces. */
  function DecodeFlags(f: seq<int>): Option<Ocean>
  {
    if f == [0, 0, 0, 0] then Some(HourFromOcean)
    else if f == [1, 0, 0, 0] then Some(Inland)
    else if f == [0, 1, 0, 0] then Some(Island)
    else if f == [0, 0, 1, 0] then Some(NearBay)
    else if f == [0, 0, 0, 1] then Some(NearOcean)
    else None
  }

  /** Decoding the flags of any value gives that value back, so the encoding is injective. */
  lemma DecodeFlagsOfFlags(o: Ocean)
    ensures DecodeFlags(Flags(o)) == Some(o)
  {
  }

  /** A flag pattern that decodes at all is exactly the flags of what it decodes to. */
  lemma FlagsOfDecodeFlags(f: seq<int>)
    requires DecodeFlags(f).Some?
    ensures Flags(DecodeFlags(f).value) == f
  {
  }

  /** Distinct values never share a flag pattern. */
  lemma FlagsInjective(o1: Ocean, o2: Ocean)
    requires Flags(o1) == Flags(o2)
    ensures o1 == o2
  {
  }

  /** The eight numeric form fields, passed through unchanged. */
  datatype HouseInputs = HouseInputs(
    longitude: real, latitude: real, housingMedianAge: real,
    totalRooms: real, totalBedrooms: real, population: real,
    households: real, medianIncome: real)

  /**
   * The feature row: the eight numeric fields in form order, then the four
   * flags, as reals (the array mixes floats and ints, so it holds floats).
   */
  function FeatureRow(h: HouseInputs, ocean: string): (v: seq<real>)
    ensures |v| == 12
    ensures v[0] == h.longitude && v[1] == h.latitude && v[2] == h.housingMedianAge
    ensures v[3] == h.totalRooms && v[4] == h.totalBedrooms && v[5] == h.population
    ensures v[6] == h.households && v[7] == h.medianIncome
    ensures forall k :: 0 <= k < 4 ==> (v[8 + k] == 1.0 <==> ocean == DUMMY_LEVELS[k])
    ensures forall i :: 8 <= i < 12 ==> v[i] == 0.0 || v[i] == 1.0
  {
    var f := OceanFlags(ocean);
    [h.longitude, h.latitude, h.housingMedianAge,
     h.totalRooms, h.totalBedrooms,
     h.population, h.households, h.medianIncome,
     f[0] as real, f[1] as real, f[2] as real, f[3] as real]
  }

  /** Reads a flag back from its float form; None unless it is exactly 0.0 or 1.0. */
  function FlagOfReal(x: real): Option<int>
  {
    if x == 0.0 then Some(0) else if x == 1.0 then Some(1) else None
  }

  /** Splits a 12-entry row back into the numeric fields and the selected value. */
  function DecodeRow(v: seq<real>): Option<(HouseInputs, Ocean)>
  {
    if |v| != 12 then None
    else
      var f0, f1, f2, f3 := FlagOfReal(v[8]), FlagOfReal(v[9]), FlagOfReal(v[10]), FlagOfReal(v[11]);
      if f0.None? || f1.None? || f2.None? || f3.None? then None
      else
        match DecodeFlags([f0.value, f1.value, f2.value, f3.value])
        case None => None
        case Some(o) => Some((HouseInputs(v[0], v[1], v[2], v[3], v[4], v[5], v[6], v[7]), o))
  }

  /** Nothing is lost in the row: both the numbers and the selection can be read back from it. */
  lemma DecodeRowOfFeatureRow(h: HouseInputs, o: Ocean)
    ensures DecodeRow(FeatureRow(h, Label(o))) == Some((h, o))
  {
  }

  /** Every row that decodes is the feature row of what it decodes to. */
  lemma FeatureRowOfDecodeRow(v: seq<real>)
    requires DecodeRow(v).Some?
    ensures FeatureRow(DecodeRow(v).value.0, Label(DecodeRow(v).value.1)) == v
  {
  }

  /** The sample house of the training script: INLAND, rooms 3000, bedrooms 500, income 4.5. */
  const SAMPLE_INPUTS := HouseInputs(-120.0, 35.0, 20.0, 3000.0, 500.0, 800.0, 400.0, 4.5)

  /** The sample row the training script writes out by hand. */
  const SAMPLE_ROW: seq<real> := [-120.0, 35.0, 20.0, 3000.0, 500.0, 800.0, 400.0, 4.5, 1.0, 0.0, 0.0, 0.0]

  /** Encoding the sample house through the form gives exactly the hand-built row. */
  lemma SampleRowMatches()
    ensures FeatureRow(SAMPLE_INPUTS, Label(Inland)) == SAMPLE_ROW
  {
  }

  /** The form's default values, with the selector on its first option. */
  const DEFAULT_INPUTS := HouseInputs(-120.0, 35.0, 20.0, 1000.0, 200.0, 800.0, 300.0, 4.0)

  /** The untouched form encodes the reference level as four zero flags. */
  lemma DefaultRow()
    ensures FeatureRow(DEFAULT_INPUTS, CHOICES[0])
         == [-120.0, 35.0, 20.0, 1000.0, 200.0, 800.0, 300.0, 4.0, 0.0, 0.0, 0.0, 0.0]
  {
  }
}
