/**
 * The fixed fragment table of the audio engine: for every track, the pattern
 * fragment played for each option id.
 */
module Patterns {

  /** The tracks of the table, in the order the composition stacks them. */
  const Tracks: seq<string> := ["bass", "drums", "harmony", "melody"]

  /** The option ids every track defines. */
  const OptionIds: set<string> := {"option1", "option2", "option3"}

  /** The option a track falls back to when its flag names no fragment. */
  const DefaultOption: string := "option1"

  const BassOption1: string := "note(\"c3 e3 g3 b3\").s(\"triangle\").lpf(1000)"
  const BassOption2: string := "note(\"c2 c3\").s(\"sawtooth\").lpf(500)"
  const BassOption3: string := "note(\"c2*2\").s(\"square\").lpf(800)"
  const BassFragments: map<string, string> :=
    map["option1" := BassOption1, "option2" := BassOption2, "option3" := BassOption3]

  const DrumsOption1: string := "s(\"bd sd\").bank(\"RolandTR909\")"
  const DrumsOption2: string := "s(\"bd hh sd hh\").bank(\"RolandTR909\")"
  const DrumsOption3: string := "s(\"bd*2 [sd hh]*2\").bank(\"RolandTR909\")"
  const DrumsFragments: map<string, string> :=
    map["option1" := DrumsOption1, "option2" := DrumsOption2, "option3" := DrumsOption3]

  const HarmonyOption1: string := "chord(\"Cm7\").s(\"piano\")"
  const HarmonyOption2: string := "chord(\"Cm9\").s(\"superpiano\")"
  const HarmonyOption3: string := "chord(\"Cm7\").s(\"sawtooth\").lpf(2000).delay(0.5)"
  const HarmonyFragments: map<string, string> :=
    map["option1" := HarmonyOption1, "option2" := HarmonyOption2, "option3" := HarmonyOption3]

  const MelodyOption1: string := "note(\"g4 f4 eb4 d4\").s(\"piano\")"
  const MelodyOption2: string := "note(\"c5 g4\").s(\"sine\")"
  const MelodyOption3: string := "note(\"eb5 d5 c5 bb4\").s(\"square\")"
  const MelodyFragments: map<string, string> :=
    map["option1" := MelodyOption1, "option2" := MelodyOption2, "option3" := MelodyOption3]

  /** track -> option id -> pattern fragment. */
  const PATTERNS: map<string, map<string, string>> := map[
    "bass" := BassFragments,
    "drums" := DrumsFragments,
    "harmony" := HarmonyFragments,
    "melody" := MelodyFragments
  ]

  /** What the composition relies on in one track's table. */
  predicate WellFormedTable(table: map<string, string>)
  {
    && table.Keys == OptionIds
    && (forall o :: o in table ==> table[o] != "" && '\n' !in table[o])
    && (forall o1, o2 :: o1 in table && o2 in table && table[o1] == table[o2] ==> o1 == o2)
  }

  /** A three-option table is well formed when its three fragments are. */
  lemma ThreeOptionTable(f1: string, f2: string, f3: string)
    requires f1 != "" && f2 != "" && f3 != ""
    requires '\n' !in f1 && '\n' !in f2 && '\n' !in f3
    requires f1 != f2 && f1 != f3 && f2 != f3
    ensures WellFormedTable(map["option1" := f1, "option2" := f2, "option3" := f3])
  {
  }

  lemma BassWellFormed() ensures WellFormedTable(BassFragments)
  {
    ThreeOptionTable(BassFragments["option1"], BassFragments["option2"], BassFragments["option3"]);
  }

  lemma DrumsWellFormed() ensures WellFormedTable(DrumsFragments)
  {
    ThreeOptionTable(DrumsFragments["option1"], DrumsFragments["option2"], DrumsFragments["option3"]);
  }

  lemma HarmonyWellFormed() ensures WellFormedTable(HarmonyFragments)
  {
    ThreeOptionTable(HarmonyFragments["option1"], HarmonyFragments["option2"], HarmonyFragments["option3"]);
  }

  lemma MelodyWellFormed() ensures WellFormedTable(MelodyFragments)
  {
    ThreeOptionTable(MelodyFragments["option1"], MelodyFragments["option2"], MelodyFragments["option3"]);
  }

  /** One track's table: exactly option1..option3, non-empty single-line fragments, distinct per option. */
  lemma TrackTable(track: string)
    requires track in PATTERNS
    ensures WellFormedTable(PATTERNS[track])
    ensures PATTERNS[track].Keys == OptionIds && DefaultOption in PATTERNS[track]
  {
    if track == "bass" {
      BassWellFormed();
    } else if track == "drums" {
      DrumsWellFormed();
    } else if track == "harmony" {
      HarmonyWellFormed();
    } else {
      MelodyWellFormed();
    }
  }

  /** Every option1 fragment is a call, so it starts with neither `f` nor `[`. */
  lemma DefaultFragmentStart(track: string)
    requires track in PATTERNS
    ensures PATTERNS[track][DefaultOption] != ""
    ensures PATTERNS[track][DefaultOption][0] != 'f' && PATTERNS[track][DefaultOption][0] != '['
  {
    if track == "bass" {
      assert PATTERNS[track][DefaultOption] == BassOption1 && BassOption1[0] == 'n';
    } else if track == "drums" {
      assert PATTERNS[track][DefaultOption] == DrumsOption1 && DrumsOption1[0] == 's';
    } else if track == "harmony" {
      assert PATTERNS[track][DefaultOption] == HarmonyOption1 && HarmonyOption1[0] == 'c';
    } else {
      assert PATTERNS[track][DefaultOption] == MelodyOption1 && MelodyOption1[0] == 'n';
    }
  }

  /** The table holds exactly the four tracks, in the order of `Tracks`. */
  lemma TableShape()
    ensures PATTERNS.Keys == {"bass", "drums", "harmony", "melody"}
    ensures forall k :: 0 <= k < |Tracks| ==> Tracks[k] in PATTERNS
  {
  }
}
