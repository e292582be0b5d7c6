/**
 * The five-step processing tracker in the upload drawer: which steps are completed, current or
 * pending, which icon and label each shows, where the upload percentage appears, and which
 * connectors are drawn as completed.
 */
module ProcessingTracker {
  import opened Wrappers
  import opened FeedTypes
  import opened ReasonMessages

  const STEP_COUNT: nat := 5

  /** The fixed step labels, step `k + 1` at index `k`. */
  const STEP_LABELS: seq<string> := [
    "Uploading image to S3 bucket",
    "Lambda Event Triggered",
    "Checking image by Rekognition",
    "Tagging Image",
    "Final Status"
  ]

  const FINALIZING: string := "Finalizing..."

  datatype Icon = CompletedIcon | Spinner | PendingIcon | ApprovedIcon | BlurredIcon | BlockedIcon

  /**
   * What one step shows. `connector` is the line drawn below the step (absent after the last)
   * with whether it is drawn as completed; `progress` is the percentage, when one is shown.
   */
  datatype StepView = StepView(
    id: int,
    completed: bool,
    current: bool,
    pending: bool,
    icon: Icon,
    labelText: string,
    subLabel: Option<string>,
    connector: Option<bool>,
    progress: Option<int>)

  /** The step at `index` (id `index + 1`) for the given processing record fields. */
  function RenderStep(index: nat, currentStep: int, uploadProgress: int, finalStatus: Option<string>, reason: Option<string>): (v: StepView)
    requires index < STEP_COUNT
    ensures v.id == index + 1
  {
    var id := index + 1;
    var completed := currentStep > id || (currentStep == id && id == 5 && Truthy(finalStatus));
    var current := currentStep == id;
    var pending := currentStep < id;
    var icon := if completed then CompletedIcon else if current then Spinner else PendingIcon;
    var (icon, labelText, subLabel) :=
      if id == 5 && Truthy(finalStatus) then
        if finalStatus.value == APPROVED then (ApprovedIcon, "Approved", None)
        else if finalStatus.value == BLURRED then (BlurredIcon, "Blurred", Some(GetReasonMessage(reason)))
        else if finalStatus.value == BLOCKED then (BlockedIcon, "Blocked", Some(GetReasonMessage(reason)))
        else (icon, STEP_LABELS[index], None)
      else if id == 5 && current then (icon, FINALIZING, None)
      else (icon, STEP_LABELS[index], None);
    StepView(
      id, completed, current, pending, icon, labelText, subLabel,
      if index < STEP_COUNT - 1 then Some(completed) else None,
      if id == 1 && current && 0 < uploadProgress < 100 then Some(uploadProgress) else None)
  }

  /** The whole tracker: one view per step, in step order. */
  function Render(currentStep: int, uploadProgress: int, finalStatus: Option<string>, reason: Option<string>): (views: seq<StepView>)
    ensures |views| == STEP_COUNT
    ensures forall k :: 0 <= k < STEP_COUNT ==> views[k].id == k + 1
  {
    seq(STEP_COUNT, k requires 0 <= k < STEP_COUNT => RenderStep(k, currentStep, uploadProgress, finalStatus, reason))
  }

  /**
   * A step is completed exactly when the tracker is past it, or it is the last step and a verdict
   * is recorded; pending excludes both completed and current; and every step is one of the three.
   */
  lemma Classification(currentStep: int, uploadProgress: int, finalStatus: Option<string>, reason: Option<string>, k: nat)
    requires k < STEP_COUNT
    ensures var v := Render(currentStep, uploadProgress, finalStatus, reason)[k];
      && (v.completed <==> currentStep > k + 1 || (currentStep == k + 1 == 5 && Truthy(finalStatus)))
      && (v.current <==> currentStep == k + 1)
      && (v.pending ==> !v.completed && !v.current)
      && (v.completed || v.current || v.pending)
  {
  }

  /** For a step number 1 to 5 exactly one step is current; for any other number none is. */
  lemma ExactlyOneCurrent(currentStep: int, uploadProgress: int, finalStatus: Option<string>, reason: Option<string>)
    ensures var views := Render(currentStep, uploadProgress, finalStatus, reason);
      && (1 <= currentStep <= 5 ==> views[currentStep - 1].current)
      && (forall k :: 0 <= k < STEP_COUNT && views[k].current ==> k == currentStep - 1)
  {
  }

  /** Completed steps form a prefix: a completed step has only completed steps before it. */
  lemma CompletedIsPrefix(currentStep: int, uploadProgress: int, finalStatus: Option<string>, reason: Option<string>, i: nat, j: nat)
    requires i < j < STEP_COUNT
    ensures var views := Render(currentStep, uploadProgress, finalStatus, reason);
      views[j].completed ==> views[i].completed
  {
  }

  /**
   * The last step's label: "Approved" alone, "Blurred" or "Blocked" with the reason's message
   * beneath, "Finalizing..." while current without a verdict, and "Final Status" otherwise.
   */
  lemma FinalStepLabel(currentStep: int, uploadProgress: int, finalStatus: Option<string>, reason: Option<string>)
    ensures var v := Render(currentStep, uploadProgress, finalStatus, reason)[4];
      && (finalStatus == Some(APPROVED) ==> v.labelText == "Approved" && v.subLabel == None && v.icon == ApprovedIcon)
      && (finalStatus == Some(BLURRED) ==> v.labelText == "Blurred" && v.subLabel == Some(GetReasonMessage(reason)) && v.icon == BlurredIcon)
      && (finalStatus == Some(BLOCKED) ==> v.labelText == "Blocked" && v.subLabel == Some(GetReasonMessage(reason)) && v.icon == BlockedIcon)
      && (!Truthy(finalStatus) && currentStep == 5 ==> v.labelText == FINALIZING && v.subLabel == None)
      && (!IsTerminal(finalStatus) && !(!Truthy(finalStatus) && currentStep == 5) ==> v.labelText == "Final Status" && v.subLabel == None)
  {
  }

  /** Only the last step ever has a sub-label, and a shown sub-label is never empty. */
  lemma SubLabelOnlyOnFinalStep(currentStep: int, uploadProgress: int, finalStatus: Option<string>, reason: Option<string>, k: nat)
    requires k < STEP_COUNT
    ensures var v := Render(currentStep, uploadProgress, finalStatus, reason)[k];
      v.subLabel.Some? ==> k == 4 && IsTerminal(finalStatus) && finalStatus != Some(APPROVED) && v.subLabel.value != ""
  {
  }

  /** The percentage appears only on step 1, only while it is current, and only strictly between 0 and 100. */
  lemma ProgressShown(currentStep: int, uploadProgress: int, finalStatus: Option<string>, reason: Option<string>, k: nat)
    requires k < STEP_COUNT
    ensures var v := Render(currentStep, uploadProgress, finalStatus, reason)[k];
      && (v.progress.Some? <==> k == 0 && currentStep == 1 && 0 < uploadProgress < 100)
      && (v.progress.Some? ==> v.progress.value == uploadProgress)
  {
  }

  /** Every step but the last has a connector, drawn completed exactly when its step is. */
  lemma Connectors(currentStep: int, uploadProgress: int, finalStatus: Option<string>, reason: Option<string>, k: nat)
    requires k < STEP_COUNT
    ensures var v := Render(currentStep, uploadProgress, finalStatus, reason)[k];
      && (v.connector.Some? <==> k < STEP_COUNT - 1)
      && (v.connector.Some? ==> v.connector.value == v.completed)
  {
  }
}
