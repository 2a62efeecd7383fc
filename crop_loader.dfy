/**
 * The crop catalogue of the legacy simulator: growth profiles and the
 * case-insensitive lookup of a profile by name. The catalogue file is
 * not read here; the list of profiles is a parameter.
 */
module CropLoader {
  import opened Wrappers
  import opened Domain
  import opened Text

  /** The optimal ranges of one growth stage. */
  datatype StageEnv = StageEnv(temperature: Range, humidity: Range, soilMoisture: Range, lightLux: Range)

  /**
   * A crop's growth profile: its stage names, the days each stage lasts
   * (numbers as the catalogue gives them) and the optimal ranges keyed by
   * stage name.
   */
  datatype CropProfile = CropProfile(
    name: string,
    stages: seq<string>,
    stageDurations: seq<real>,
    optimalEnv: map<string, StageEnv>)

  /** `c.name.toLowerCase() === name.toLowerCase()`. */
  predicate NameMatches(c: CropProfile, name: string) {
    ToLower(c.name) == ToLower(name)
  }

  /** `crops.find(...)`: the first profile whose name matches, ignoring case. */
  function ChooseCrop(crops: seq<CropProfile>, name: string): (r: Option<CropProfile>)
    ensures r.Some? ==> r.value in crops && NameMatches(r.value, name)
    ensures r.None? <==> forall c :: c in crops ==> !NameMatches(c, name)
  {
    if |crops| == 0 then None
    else if NameMatches(crops[0], name) then Some(crops[0])
    else ChooseCrop(crops[1..], name)
  }

  /** When several profiles match, the earliest one is chosen. */
  lemma {:induction false} ChooseCropFirst(crops: seq<CropProfile>, name: string, i: nat)
    requires i < |crops| && NameMatches(crops[i], name)
    requires forall j :: 0 <= j < i ==> !NameMatches(crops[j], name)
    ensures ChooseCrop(crops, name) == Some(crops[i])
  {
    if i > 0 {
      assert !NameMatches(crops[0], name);
      assert forall j :: 0 <= j < i - 1 ==> crops[1..][j] == crops[j + 1];
      ChooseCropFirst(crops[1..], name, i - 1);
    }
  }

  /** Two queries that agree once lower-cased choose the same profile. */
  lemma {:induction false} ChooseCropIgnoresCase(crops: seq<CropProfile>, a: string, b: string)
    requires ToLower(a) == ToLower(b)
    ensures ChooseCrop(crops, a) == ChooseCrop(crops, b)
  {
    if |crops| > 0 {
      ChooseCropIgnoresCase(crops[1..], a, b);
    }
  }

  /** In particular the query may be given in any case, for example all lower-case. */
  lemma ChooseCropLowered(crops: seq<CropProfile>, name: string)
    ensures ChooseCrop(crops, ToLower(name)) == ChooseCrop(crops, name)
  {
    ToLowerIdempotent(name);
    ChooseCropIgnoresCase(crops, ToLower(name), name);
  }
}
