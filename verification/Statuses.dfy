/** The words by which a payment provider says what has become of a payment. */
module Statuses {
  import opened Text
  import PaymentService

  predicate SaysPaid(status: string) {
    Spells(status, "paid") || Spells(status, "success") || Spells(status, "succeeded") || Spells(status, "completed")
  }

  predicate SaysFailed(status: string) {
    Spells(status, "failed") || Spells(status, "fail") || Spells(status, "error")
  }

  predicate SaysExpired(status: string) {
    Spells(status, "expired") || Spells(status, "cancelled") || Spells(status, "canceled")
  }

  /** A status is read by its letters alone, in any case. */
  lemma StatusIsRead(status: string)
    ensures PaymentService.Classify(status).PaidClass? <==> SaysPaid(status)
    ensures PaymentService.Classify(status).FailedClass? <==> SaysFailed(status)
    ensures PaymentService.Classify(status).ExpiredClass? <==> SaysExpired(status)
  {
    hide Lower, Spells;
    PaidWords(status);
    FailedWords(status);
    ExpiredWords(status);
  }

  lemma PaidWords(s: string)
    ensures Lower(s) in ["paid", "success", "succeeded", "completed"] <==> SaysPaid(s)
  {
    hide Lower, Spells;
    LowerSpells(s, "paid");
    LowerSpells(s, "success");
    LowerSpells(s, "succeeded");
    LowerSpells(s, "completed");
  }

  lemma FailedWords(s: string)
    ensures Lower(s) in ["failed", "fail", "error"] <==> SaysFailed(s)
  {
    hide Lower, Spells;
    LowerSpells(s, "failed");
    LowerSpells(s, "fail");
    LowerSpells(s, "error");
  }

  lemma ExpiredWords(s: string)
    ensures Lower(s) in ["expired", "cancelled", "canceled"] <==> SaysExpired(s)
  {
    hide Lower, Spells;
    LowerSpells(s, "expired");
    LowerSpells(s, "cancelled");
    LowerSpells(s, "canceled");
  }

  lemma PaidIsPaid()
    ensures SaysPaid("paid")
  {
  }
}
