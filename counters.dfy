/** Values App.tsx derives from its state for display and for the clipboard. */
module Counters {
  import opened Wrappers
  import opened Types
  import Js

  /** The job description textarea's `maxLength`. */
  const JdMaxLength: nat := 1500

  /** `jdRemainingChars`: how many characters the job description may still grow by. */
  function JdRemaining(jdData: string): (n: int)
    ensures n + |jdData| == JdMaxLength
  {
    1500 - |jdData|
  }

  /**
   * While the textarea's limit holds the counter stays within 0..1500, and it
   * is shown in red (under 100) exactly when more than 1400 characters are used.
   */
  lemma JdRemainingBounds(jdData: string)
    requires |jdData| <= JdMaxLength
    ensures 0 <= JdRemaining(jdData) <= JdMaxLength
    ensures JdRemaining(jdData) == JdMaxLength <==> jdData == ""
    ensures JdRemaining(jdData) < 100 <==> |jdData| > 1400
  {
  }

  /** The email length the template aims for. */
  const EmailTarget: nat := 1000

  /** The email length badge: characters still missing, or the length once it is enough. */
  datatype LengthBadge = Missing(chars: nat) | Optimal(length: nat)

  function EmailBadge(emailTemplate: string): (b: LengthBadge)
    ensures b.Missing? <==> |emailTemplate| < EmailTarget
    ensures b.Missing? ==> 0 < b.chars <= EmailTarget && b.chars + |emailTemplate| == EmailTarget
    ensures b.Optimal? ==> b.length == |emailTemplate| >= EmailTarget
  {
    if |emailTemplate| < 1000 then Missing(1000 - |emailTemplate|) else Optimal(|emailTemplate|)
  }

  /** A longer email never needs more characters than a shorter one. */
  lemma EmailBadgeMonotone(shorter: string, longer: string)
    requires |shorter| <= |longer|
    ensures EmailBadge(shorter).Optimal? ==> EmailBadge(longer).Optimal?
    ensures EmailBadge(longer).Missing? ==> EmailBadge(shorter).Missing? && EmailBadge(longer).chars <= EmailBadge(shorter).chars
  {
  }

  /** The text the cover letter's copy button puts on the clipboard. */
  function CoverLetterCopy(g: GenerationResult): (text: string)
    ensures Js.Truthy(g.salaryNote) ==> text == g.coverLetter + "\n\n" + g.salaryNote.value
    ensures !Js.Truthy(g.salaryNote) ==> text == g.coverLetter
  {
    g.coverLetter + if Js.Truthy(g.salaryNote) then "\n\n" + g.salaryNote.value else ""
  }

  /**
   * The copied text starts with the cover letter; it is longer than the
   * letter exactly when there is a salary note, and then the note follows a
   * blank line and can be read back from it.
   */
  lemma CoverLetterCopyParts(g: GenerationResult)
    ensures var text := CoverLetterCopy(g);
      && |g.coverLetter| <= |text|
      && text[..|g.coverLetter|] == g.coverLetter
      && (|text| > |g.coverLetter| <==> Js.Truthy(g.salaryNote))
      && (Js.Truthy(g.salaryNote) ==>
            text[|g.coverLetter|..|g.coverLetter| + 2] == "\n\n"
            && text[|g.coverLetter| + 2..] == g.salaryNote.value)
  {
    var text := CoverLetterCopy(g);
    if Js.Truthy(g.salaryNote) {
      assert text == g.coverLetter + ("\n\n" + g.salaryNote.value);
    }
  }
}
