/**
 * The frontend's moderation vocabulary: reason codes, their user-facing messages, the status
 * names, and the message lookup with its fallbacks.
 */
module ReasonMessages {
  import opened Wrappers
  import opened FeedTypes
  import ModerationRules

  /** Each reason code maps to its own name. */
  const REASON_CODES: map<string, string> := map[
    "MOMO" := "MOMO",
    "OTHER_FOOD" := "OTHER_FOOD",
    "NOT_FOOD" := "NOT_FOOD",
    "HUMAN_DETECTED" := "HUMAN_DETECTED",
    "UNSAFE_CONTENT" := "UNSAFE_CONTENT"
  ]

  /** The frontend's table of user-facing reason messages. */
  const REASON_MESSAGES: map<string, string> := map[
    REASON_CODES["MOMO"] := "Delicious momo detected! ✓",
    REASON_CODES["OTHER_FOOD"] := "This appears to be food, but not momo",
    REASON_CODES["NOT_FOOD"] := "This doesn't appear to be food",
    REASON_CODES["HUMAN_DETECTED"] := "Human face detected in image",
    REASON_CODES["UNSAFE_CONTENT"] := "Inappropriate or unsafe content detected"
  ]

  /** The status names the frontend knows. */
  const STATUS: map<string, string> := map[
    "APPROVED" := APPROVED,
    "BLURRED" := BLURRED,
    "BLOCKED" := BLOCKED,
    "PROCESSING" := PROCESSING
  ]

  const UNKNOWN_REASON: string := "Unknown reason"

  /**
   * `REASON_MESSAGES[code] || code || 'Unknown reason'`: the table message for a known code,
   * the code itself for any other non-empty code, and a fixed text for null or "".
   */
  function GetReasonMessage(code: Option<string>): (m: string)
    ensures code.Some? && code.value in REASON_MESSAGES ==> m == REASON_MESSAGES[code.value]
    ensures code.Some? && code.value !in REASON_MESSAGES && code.value != "" ==> m == code.value
    ensures !Truthy(code) ==> m == UNKNOWN_REASON
    ensures m != ""
  {
    match code
    case None => UNKNOWN_REASON
    case Some(c) =>
      if c in REASON_MESSAGES && REASON_MESSAGES[c] != "" then REASON_MESSAGES[c]
      else if c != "" then c
      else UNKNOWN_REASON
  }

  /** Every code names itself, and the codes are exactly the keys of the message table. */
  lemma ReasonCodesAreIdentity()
    ensures forall k :: k in REASON_CODES ==> REASON_CODES[k] == k
    ensures REASON_CODES.Keys == REASON_MESSAGES.Keys
  {
  }

  /** The frontend and backend message tables agree entry for entry. */
  lemma MessageTablesAgree()
    ensures REASON_MESSAGES == ModerationRules.REASON_MESSAGES
  {
  }

  /** Every reason the backend classifier can give is shown with its table message. */
  lemma EveryVerdictHasMessage(v: ModerationRules.Verdict)
    requires v in ModerationRules.VERDICTS
    ensures v.reason in REASON_MESSAGES
    ensures GetReasonMessage(Some(v.reason)) == ModerationRules.REASON_MESSAGES[v.reason]
  {
    MessageTablesAgree();
  }
}
