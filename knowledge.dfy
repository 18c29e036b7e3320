/**
 * `KnowledgeBaseTools.get_crop_requirements` of `agent_roles.py`: a
 * case-insensitive substring dispatch over three fixed answers, where "corn"
 * is tested before "wheat".
 */
module KnowledgeBase {
  import opened TextUtil

  const CornConditions: string :=
    "Ideal conditions for corn: Temperature: 21-27°C, Humidity: 60-80%, Soil Moisture: 300-600. Requires full sun."

  const WheatConditions: string :=
    "Ideal conditions for wheat: Temperature: 10-25°C, Humidity: 50-70%, Soil Moisture: 400-700. Tolerates cooler temperatures."

  const NoData: string :=
    "No specific data found for this crop. Please provide a common crop name like 'corn' or 'wheat'."

  /**
   * `get_crop_requirements(crop_name)`: the corn answer when the lower-cased name
   * contains "corn" anywhere, otherwise the wheat answer when it contains
   * "wheat", otherwise the no-data answer.
   */
  function GetCropRequirements(cropName: string): (r: string)
    ensures r == CornConditions <==> Contains(Lower(cropName), "corn")
    ensures r == WheatConditions <==> !Contains(Lower(cropName), "corn") && Contains(Lower(cropName), "wheat")
    ensures r == NoData <==> !Contains(Lower(cropName), "corn") && !Contains(Lower(cropName), "wheat")
    ensures r in {CornConditions, WheatConditions, NoData}
  {
    AnswersDistinct();
    if HasSubstring(Lower(cropName), "corn") then CornConditions
    else if HasSubstring(Lower(cropName), "wheat") then WheatConditions
    else NoData
  }

  /** The three answers are different strings, so the answer tells which branch was taken. */
  lemma AnswersDistinct()
    ensures CornConditions != WheatConditions && CornConditions != NoData && WheatConditions != NoData
  {
    assert |CornConditions| == 109 && |WheatConditions| == 122 && |NoData| == 95;
  }

  /** An occurrence of `p` at index `i` of `s` witnesses `Contains(s, p)`. */
  lemma Witness(s: string, p: string, i: nat)
    requires OccursAt(s, p, i)
    ensures Contains(s, p)
  {
  }

  /** A name lacking one of the characters of `p` does not contain `p`. */
  lemma MissingChar(s: string, p: string, k: nat)
    requires k < |p| && p[k] !in s
    ensures !Contains(s, p)
  {
  }

  /** A name naming both crops gets the corn answer, since "corn" is tested first. */
  lemma CornBeforeWheat()
    ensures GetCropRequirements("corn and wheat") == CornConditions
  {
    var s := Lower("corn and wheat");
    assert s[0..4] == "corn";
    Witness(s, "corn", 0);
  }

  /** Matching is by substring, not by whole word: "Popcorn" is corn and "Buckwheat" is wheat. */
  lemma SubstringNotWord()
    ensures GetCropRequirements("Popcorn") == CornConditions
    ensures GetCropRequirements("Buckwheat") == WheatConditions
  {
    var pop := Lower("Popcorn");
    assert pop == "popcorn";
    assert pop[3..7] == "corn";
    Witness(pop, "corn", 3);

    var buck := Lower("Buckwheat");
    assert buck == "buckwheat";
    assert buck[4..9] == "wheat";
    Witness(buck, "wheat", 4);
    MissingChar(buck, "corn", 1);
  }

  /** The test ignores ASCII case: "CORN" and "Wheat" are recognised. */
  lemma IgnoresCase()
    ensures GetCropRequirements("CORN") == CornConditions
    ensures GetCropRequirements("Wheat") == WheatConditions
  {
    var corn := Lower("CORN");
    assert corn == "corn";
    assert corn[0..4] == "corn";
    Witness(corn, "corn", 0);

    var wheat := Lower("Wheat");
    assert wheat == "wheat";
    assert wheat[0..5] == "wheat";
    Witness(wheat, "wheat", 0);
    MissingChar(wheat, "corn", 0);
  }

  /** A name mentioning neither crop, like "rice", gets the no-data answer. */
  lemma UnknownCrop()
    ensures GetCropRequirements("rice") == NoData
  {
    var rice := Lower("rice");
    assert rice == "rice";
    MissingChar(rice, "corn", 1);
    MissingChar(rice, "wheat", 0);
  }
}
