/** The validate-and-retry loop around the language model. */
module ExtractionRetry {
  import opened Options
  import opened Rules

  const MAX_TEXT_CHARS := 20_000

  datatype ExtractionResult = ExtractionResult(invoice: ExtractedInvoice, confidence: map<string, real>)

  /** One answer of the model, as the two parsing steps see it. */
  datatype Reply =
    | Unreachable
    | NotJson(raw: string, error: string)
    | WrongShape(raw: string, error: string)
    | Valid(raw: string, result: ExtractionResult)

  datatype Prompt = Prompt(text: string, errorHint: Option<string>)

  datatype RetryOutcome =
    | Parsed(result: ExtractionResult, attempts: nat, raw: string)
    | Exhausted(errors: seq<string>, attempts: nat, raw: string)
    | ModelUnreachable

  /** The model may stop answering at any point: the call then raises. */
  function ReplyAt(replies: seq<Reply>, i: nat): Reply {
    if i < |replies| then replies[i] else Unreachable
  }

  predicate Rejected(reply: Reply) {
    reply.NotJson? || reply.WrongShape?
  }

  /** How many calls are allowed: `range(1, max_retries + 2)`. */
  function CallLimit(maxRetries: int): nat {
    if maxRetries >= 0 then maxRetries + 1 else 0
  }

  /** The number of replies rejected before the first that is not, within the budget. */
  function RejectedPrefix(replies: seq<Reply>, budget: nat): (n: nat)
    ensures n <= budget
    ensures forall i :: 0 <= i < n ==> Rejected(ReplyAt(replies, i))
    ensures n < budget ==> !Rejected(ReplyAt(replies, n))
  {
    if budget == 0 || !Rejected(ReplyAt(replies, 0)) then 0
    else
      assert replies != [];
      var n := RejectedPrefix(replies[1..], budget - 1);
      assert forall i: nat :: ReplyAt(replies, i + 1) == ReplyAt(replies[1..], i);
      assert forall i :: 0 < i < n + 1 ==> Rejected(ReplyAt(replies[1..], i - 1)) && ReplyAt(replies, i) == ReplyAt(replies[1..], i - 1);
      n + 1
  }

  function Errors(replies: seq<Reply>, n: nat): seq<string>
    requires forall i :: 0 <= i < n ==> Rejected(ReplyAt(replies, i))
  {
    seq(n, i requires 0 <= i < n =>
      assert Rejected(ReplyAt(replies, i));
      ReplyAt(replies, i).error)
  }

  function Outcome(replies: seq<Reply>, maxRetries: int): RetryOutcome {
    var n := RejectedPrefix(replies, CallLimit(maxRetries));
    if n < CallLimit(maxRetries) then
      match ReplyAt(replies, n)
      case Valid(raw, result) => Parsed(result, n + 1, raw)
      case _ => ModelUnreachable
    else
      Exhausted(Errors(replies, n), n, if n == 0 then "" else ReplyAt(replies, n - 1).raw)
  }

  /** The first `n` replies came, and each was rejected for its form. */
  predicate AllMalformed(replies: seq<Reply>, n: int) {
    0 <= n <= |replies| && forall i :: 0 <= i < n ==> replies[i].NotJson? || replies[i].WrongShape?
  }

  /** Reply `i` is the first that is not malformed. */
  predicate Decides(replies: seq<Reply>, i: int) {
    AllMalformed(replies, i) && (i < |replies| ==> replies[i].Valid? || replies[i].Unreachable?)
  }

  /** What the outcome is, for every number of retries that makes sense: one call more than retries. */
  lemma OutcomeMeans(replies: seq<Reply>, maxRetries: int)
    requires maxRetries >= 0
    ensures var o := Outcome(replies, maxRetries);
            && (o.Exhausted? <==> AllMalformed(replies, maxRetries + 1))
            && (o.Exhausted? ==>
                  && o.attempts == maxRetries + 1 == |o.errors|
                  && o.raw == replies[maxRetries].raw
                  && forall i :: 0 <= i <= maxRetries ==> o.errors[i] == replies[i].error)
            && (forall i :: 0 <= i <= maxRetries && Decides(replies, i) ==>
                  if i < |replies| && replies[i].Valid?
                  then o == Parsed(replies[i].result, i + 1, replies[i].raw)
                  else o == ModelUnreachable)
            && (!o.Exhausted? ==> exists i :: 0 <= i <= maxRetries && Decides(replies, i))
  {
    var n := RejectedPrefix(replies, CallLimit(maxRetries));
    forall i | 0 <= i < n ensures i < |replies| && (replies[i].NotJson? || replies[i].WrongShape?) {
      assert Rejected(ReplyAt(replies, i));
    }
    assert n > 0 ==> Rejected(ReplyAt(replies, n - 1));
    if n < CallLimit(maxRetries) {
      assert !Rejected(ReplyAt(replies, n));
      assert Decides(replies, n);
      FirstDecides(replies, n);
    }
  }

  /** At most one reply decides. */
  lemma FirstDecides(replies: seq<Reply>, n: int)
    requires Decides(replies, n)
    ensures forall i :: Decides(replies, i) ==> i == n
    ensures forall i :: i > n ==> !AllMalformed(replies, i)
  {
  }

  /** With a negative number of retries no call is made. */
  lemma NoRetriesNoCalls(replies: seq<Reply>, maxRetries: int)
    requires maxRetries < 0
    ensures Outcome(replies, maxRetries) == Exhausted([], 0, "")
  {
  }

  /**
   The loop. The first valid reply within the budget is returned with the number
   of calls made; when every reply is malformed there is one error per call and
   the raw text is the last one; each further prompt carries the error of the
   reply just before it, the first carries none, and the document is cut to 20,000
   characters.
   */
  method ExtractWithRetry(replies: seq<Reply>, documentText: string, maxRetries: int)
    returns (outcome: RetryOutcome, prompts: seq<Prompt>)
    ensures outcome == Outcome(replies, maxRetries)
    ensures maxRetries < 0 ==> outcome == Exhausted([], 0, "") && prompts == []
    ensures maxRetries >= 0 ==> 1 <= |prompts| <= maxRetries + 1
    ensures maxRetries >= 0 && AllMalformed(replies, maxRetries + 1) ==>
              && outcome.Exhausted? && outcome.attempts == maxRetries + 1 == |outcome.errors| == |prompts|
              && outcome.raw == replies[maxRetries].raw
              && forall i :: 0 <= i <= maxRetries ==> outcome.errors[i] == replies[i].error
    ensures maxRetries >= 0 && !AllMalformed(replies, maxRetries + 1) ==>
              && Decides(replies, |prompts| - 1)
              && var i := |prompts| - 1;
              if i < |replies| && replies[i].Valid?
              then outcome == Parsed(replies[i].result, i + 1, replies[i].raw)
              else outcome == ModelUnreachable
    ensures forall i :: 0 <= i < |prompts| ==>
              && prompts[i].text == (if |documentText| <= 20_000 then documentText else documentText[..20_000])
              && (i == 0 ==> prompts[i].errorHint == None)
              && (i > 0 ==> i <= |replies| && (replies[i - 1].NotJson? || replies[i - 1].WrongShape?)
                            && prompts[i].errorHint == Some(replies[i - 1].error))
  {
    if maxRetries >= 0 {
      OutcomeMeans(replies, maxRetries);
    }
    outcome, prompts := RetryLoop(replies, documentText, maxRetries);
    if maxRetries >= 0 && outcome.ModelUnreachable? {
      assert Decides(replies, |prompts| - 1);
    }
  }

  method RetryLoop(replies: seq<Reply>, documentText: string, maxRetries: int)
    returns (outcome: RetryOutcome, prompts: seq<Prompt>)
    ensures outcome == Outcome(replies, maxRetries)
    ensures |prompts| <= CallLimit(maxRetries)
    ensures outcome.Exhausted? ==> |prompts| == CallLimit(maxRetries)
    ensures !outcome.Exhausted? ==> |prompts| >= 1 && Decides(replies, |prompts| - 1)
    ensures forall i :: 0 <= i < |prompts| ==>
              && prompts[i].text == (if |documentText| <= 20_000 then documentText else documentText[..20_000])
              && (i == 0 ==> prompts[i].errorHint == None)
              && (i > 0 ==> i <= |replies| && (replies[i - 1].NotJson? || replies[i - 1].WrongShape?)
                            && prompts[i].errorHint == Some(replies[i - 1].error))
  {
    var text := documentText[..if |documentText| <= MAX_TEXT_CHARS then |documentText| else MAX_TEXT_CHARS];
    var errorHint: Option<string> := None;
    var lastRaw := "";
    var errors: seq<string> := [];
    prompts := [];
    var attempt := 0;
    ghost var stop := RejectedPrefix(replies, CallLimit(maxRetries));
    while attempt < CallLimit(maxRetries)
      invariant attempt <= stop
      invariant AllMalformed(replies, attempt)
      invariant forall i :: 0 <= i < attempt ==> Rejected(ReplyAt(replies, i))
      invariant errors == Errors(replies, attempt)
      invariant |prompts| == attempt
      invariant errorHint == if attempt == 0 then None else Some(ReplyAt(replies, attempt - 1).error)
      invariant lastRaw == if attempt == 0 then "" else ReplyAt(replies, attempt - 1).raw
      invariant forall i :: 0 <= i < |prompts| ==>
                  && prompts[i].text == text
                  && (i == 0 ==> prompts[i].errorHint == None)
                  && (i > 0 ==> prompts[i].errorHint == Some(ReplyAt(replies, i - 1).error))
    {
      prompts := prompts + [Prompt(text, errorHint)];
      var reply := ReplyAt(replies, attempt);
      attempt := attempt + 1;
      match reply {
        case Unreachable =>
          outcome := ModelUnreachable;
          return;
        case NotJson(raw, error) =>
          lastRaw, errorHint := raw, Some(error);
          errors := errors + [error];
        case WrongShape(raw, error) =>
          lastRaw, errorHint := raw, Some(error);
          errors := errors + [error];
        case Valid(raw, result) =>
          outcome := Parsed(result, attempt, raw);
          return;
      }
    }
    outcome := Exhausted(errors, attempt, lastRaw);
  }
}
