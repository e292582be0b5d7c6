/**
 * The backend's moderation decision: keyword tests over the stringified recognition labels,
 * tried in a fixed priority order, map an image to one of five (status, reason) verdicts.
 */
module ModerationRules {
  import opened Strings
  import opened FeedTypes

  const REASON_MOMO: string := "MOMO"
  const REASON_OTHER_FOOD: string := "OTHER_FOOD"
  const REASON_NOT_FOOD: string := "NOT_FOOD"
  const REASON_HUMAN_DETECTED: string := "HUMAN_DETECTED"
  const REASON_UNSAFE_CONTENT: string := "UNSAFE_CONTENT"

  /** The backend's table of user-facing reason messages. */
  const REASON_MESSAGES: map<string, string> := map[
    REASON_MOMO := "Delicious momo detected! ✓",
    REASON_OTHER_FOOD := "This appears to be food, but not momo",
    REASON_NOT_FOOD := "This doesn't appear to be food",
    REASON_HUMAN_DETECTED := "Human face detected in image",
    REASON_UNSAFE_CONTENT := "Inappropriate or unsafe content detected"
  ]

  const UNSAFE_KEYWORDS: seq<string> := ["suggestive", "explicit", "violence", "gore", "weapon"]
  const FACE_KEYWORDS: seq<string> := ["person", "human", "face", "people"]
  const FOOD_KEYWORDS: seq<string> := ["food", "dish", "meal", "cuisine"]
  const MOMO_KEYWORDS: seq<string> := ["dumpling", "momo", "dim sum", "wonton"]

  /** A (status, reason) pair as the classifier returns it. */
  datatype Verdict = Verdict(status: string, reason: string)

  /** The only five verdicts the classifier can give. */
  const VERDICTS: set<Verdict> := {
    Verdict(BLOCKED, REASON_UNSAFE_CONTENT),
    Verdict(BLOCKED, REASON_HUMAN_DETECTED),
    Verdict(BLOCKED, REASON_NOT_FOOD),
    Verdict(APPROVED, REASON_MOMO),
    Verdict(BLURRED, REASON_OTHER_FOOD)
  }

  /**
   * `any(keyword in str(labels).lower() for keyword in keywords)`, with the labels already
   * stringified: some keyword is a substring of the lower-cased labels.
   */
  function AnyKeyword(labels: string, keywords: seq<string>): (b: bool)
    ensures b <==> exists i :: 0 <= i < |keywords| && Contains(Lower(labels), keywords[i])
  {
    if keywords == [] then false
    else
      var rest := AnyKeyword(labels, keywords[1..]);
      assert forall i :: 1 <= i < |keywords| ==> keywords[i] == keywords[1..][i - 1];
      Contains(Lower(labels), keywords[0]) || rest
  }

  predicate HasUnsafeContent(labels: string) { AnyKeyword(labels, UNSAFE_KEYWORDS) }
  predicate HasHumanFaces(labels: string) { AnyKeyword(labels, FACE_KEYWORDS) }
  predicate IsFood(labels: string) { AnyKeyword(labels, FOOD_KEYWORDS) }
  predicate IsMomo(labels: string) { AnyKeyword(labels, MOMO_KEYWORDS) }

  /**
   * The decision tree: unsafe content, then faces, then "not food", then momo against any
   * other food. Every label string gets one of the five verdicts.
   */
  function GetStatusAndReason(labels: string): (v: Verdict)
    ensures v in VERDICTS
    ensures HasUnsafeContent(labels) ==> v == Verdict(BLOCKED, REASON_UNSAFE_CONTENT)
    ensures !HasUnsafeContent(labels) && HasHumanFaces(labels) ==> v == Verdict(BLOCKED, REASON_HUMAN_DETECTED)
    ensures !HasUnsafeContent(labels) && !HasHumanFaces(labels) && !IsFood(labels) ==> v == Verdict(BLOCKED, REASON_NOT_FOOD)
    ensures v.status == BLOCKED <==> HasUnsafeContent(labels) || HasHumanFaces(labels) || !IsFood(labels)
  {
    if HasUnsafeContent(labels) then Verdict(BLOCKED, REASON_UNSAFE_CONTENT)
    else if HasHumanFaces(labels) then Verdict(BLOCKED, REASON_HUMAN_DETECTED)
    else if !IsFood(labels) then Verdict(BLOCKED, REASON_NOT_FOOD)
    else if IsMomo(labels) then Verdict(APPROVED, REASON_MOMO)
    else Verdict(BLURRED, REASON_OTHER_FOOD)
  }

  /** Approval happens exactly for momo food with no unsafe or face keyword, and always cites MOMO. */
  lemma ApprovedIff(labels: string)
    ensures GetStatusAndReason(labels).status == APPROVED <==>
      IsFood(labels) && IsMomo(labels) && !HasUnsafeContent(labels) && !HasHumanFaces(labels)
    ensures GetStatusAndReason(labels).status == APPROVED ==> GetStatusAndReason(labels).reason == REASON_MOMO
  {
  }

  /** Blurring happens exactly for non-momo food with no unsafe or face keyword. */
  lemma BlurredIff(labels: string)
    ensures GetStatusAndReason(labels) == Verdict(BLURRED, REASON_OTHER_FOOD) <==>
      IsFood(labels) && !IsMomo(labels) && !HasUnsafeContent(labels) && !HasHumanFaces(labels)
  {
  }

  /** A momo keyword is not enough: without a food keyword the image is blocked as not food. */
  lemma MomoWithoutFoodIsNotFood(labels: string)
    requires IsMomo(labels) && !IsFood(labels)
    requires !HasUnsafeContent(labels) && !HasHumanFaces(labels)
    ensures GetStatusAndReason(labels) == Verdict(BLOCKED, REASON_NOT_FOOD)
  {
  }

  /** Keyword tests see the labels lower-cased, so the letter case of the labels never matters. */
  lemma {:induction false} VerdictIgnoresCase(labels: string)
    ensures GetStatusAndReason(Lower(labels)) == GetStatusAndReason(labels)
  {
    LowerIdempotent(labels);
  }

  /** The tests are plain substring tests: "Surface" counts as a face keyword. */
  lemma SurfaceMatchesFace()
    ensures HasHumanFaces("Surface")
    ensures GetStatusAndReason("Surface") == Verdict(BLOCKED, REASON_HUMAN_DETECTED)
  {
    var low := Lower("Surface");
    assert low == "surface";
    assert OccursAt(low, FACE_KEYWORDS[2], 3);
    SurfaceIsSafe(low);
  }

  /** No unsafe keyword occurs in "surface". */
  lemma SurfaceIsSafe(low: string)
    requires low == "surface"
    ensures forall i :: 0 <= i < |UNSAFE_KEYWORDS| ==> !Contains(low, UNSAFE_KEYWORDS[i])
  {
    assert |UNSAFE_KEYWORDS[0]| > |low| && |UNSAFE_KEYWORDS[1]| > |low| && |UNSAFE_KEYWORDS[2]| > |low|;
    // neither 'g' nor 'w' occurs in "surface", so neither "gore" nor "weapon" can start anywhere
    AbsentFirstChar(low, "gore");
    AbsentFirstChar(low, "weapon");
  }
}
