// Raw provider status strings, and how the engine's abstract ProviderStatus
// stands for them.

module StatusMapper {
  import opened Options
  import opened OrderModel

  function LowerChar(c: char): char {
    if 'A' <= c <= 'Z' then (c as int + 32) as char else c
  }

  function ToLower(s: string): (r: string)
    ensures |r| == |s|
  {
    seq(|s|, i requires 0 <= i < |s| => LowerChar(s[i]))
  }

  predicate IsBlank(c: char) { c in {' ', '\t', '\n', '\r'} }

  function TrimLeft(s: string): string {
    if s != "" && IsBlank(s[0]) then TrimLeft(s[1..]) else s
  }

  function TrimRight(s: string): string {
    if s != "" && IsBlank(s[|s| - 1]) then TrimRight(s[..|s| - 1]) else s
  }

  // String(providerStatus ?? '').toLowerCase().trim()
  function Key(raw: Option<string>): string {
    match raw
    case None => ""
    case Some(s) => TrimRight(TrimLeft(ToLower(s)))
  }

  const COMPLETED_KEYS: set<string> :=
    {"completed", "complete", "success", "done", "accept", "accepted", "ok", "delivered", "fulfilled"}
  const PROCESSING_KEYS: set<string> :=
    {"processing", "in_progress", "in progress", "inprogress", "in_process", "running", "active",
     "pending", "queued", "wait", "waiting", "awaiting", "new", "created", "placement_uncertain"}
  const PARTIAL_KEYS: set<string> := {"partial", "partially_completed", "partial_complete"}
  const CANCELED_KEYS: set<string> := {"cancelled", "canceled", "cancel"}
  const FAILED_KEYS: set<string> :=
    {"failed", "fail", "error", "rejected", "reject", "refunded", "expired"}

  // toInternalStatus: one table lookup; an unknown key keeps the order polling.
  function ToInternalStatus(raw: Option<string>): OrderStatus {
    var key := Key(raw);
    if key in COMPLETED_KEYS then Completed
    else if key in PROCESSING_KEYS then Processing
    else if key in PARTIAL_KEYS then Partial
    else if key in CANCELED_KEYS then Canceled
    else if key in FAILED_KEYS then Failed
    else Processing
  }

  predicate IsTerminalRaw(raw: Option<string>) {
    ToInternalStatus(raw) in {Completed, Failed, Canceled, Partial}
  }

  // requiresRefund compares the key with its own literals, not with the table.
  predicate RequiresRefundRaw(raw: Option<string>) {
    var key := Key(raw);
    key in {"cancelled", "canceled", "cancel", "failed", "fail", "error", "reject", "rejected",
            "refunded", "expired"}
    || key in {"partial", "partially_completed", "partial_complete"}
  }

  // -------------------------------------------------------------------------
  // The abstraction used by the engine
  // -------------------------------------------------------------------------

  const UNCERTAIN: string := "PLACEMENT_UNCERTAIN"

  function StatusOfVerdict(v: Verdict): OrderStatus {
    match v
    case Delivered => Completed
    case InFlight => Processing
    case PartlyDelivered => Partial
    case Cancelled => Canceled
    case Rejected => Failed
  }

  function VerdictOfStatus(s: OrderStatus): Verdict {
    match s
    case Completed => Delivered
    case Partial => PartlyDelivered
    case Canceled => Cancelled
    case Failed => Rejected
    case _ => InFlight
  }

  function Classify(raw: Option<string>): ProviderStatus {
    if raw == None then NoStatus
    else if raw == Some(UNCERTAIN) then Uncertain
    else Reported(VerdictOfStatus(ToInternalStatus(raw)))
  }

  lemma KeyOfUncertain()
    ensures Key(Some(UNCERTAIN)) == "placement_uncertain"
  {
    assert ToLower(UNCERTAIN) == "placement_uncertain";
    assert !IsBlank("placement_uncertain"[0]);
    assert !IsBlank("placement_uncertain"[|"placement_uncertain"| - 1]);
  }

  lemma FirstLetters(key: string)
    ensures key in COMPLETED_KEYS + PROCESSING_KEYS ==>
              key !in PARTIAL_KEYS && key !in CANCELED_KEYS && key !in FAILED_KEYS
  {
    if key in COMPLETED_KEYS {
      assert |key| > 1 && key[0] in {'c', 's', 'd', 'a', 'o', 'f'};
      assert key[0] == 'c' ==> key[1] == 'o';
      assert key[0] == 'f' ==> key[1] == 'u';
    }
    if key in PROCESSING_KEYS {
      assert |key| > 1 && key[0] in {'p', 'i', 'r', 'a', 'q', 'w', 'n', 'c'};
      assert key[0] == 'p' ==> key[1] != 'a';
      assert key[0] == 'c' ==> key[1] == 'r';
      assert key[0] == 'r' ==> key[1] == 'u';
    }
  }

  // isTerminal, requiresRefund and toInternalStatus, written over three
  // different lists, agree with each other on every string, and with what the
  // engine reads off the classified status.
  lemma ClassifyIsFaithful(raw: Option<string>)
    ensures ToInternalStatus(raw) == StatusOfVerdict(VerdictOf(Classify(raw)))
    ensures IsTerminalRaw(raw) <==> IsTerminal(Classify(raw))
    ensures RequiresRefundRaw(raw) <==> RequiresRefund(Classify(raw))
    ensures IsTerminalRaw(raw) && !RequiresRefundRaw(raw) <==> ToInternalStatus(raw) == Completed
    ensures Classify(raw) == NoStatus <==> raw == None
    ensures Classify(raw) == Uncertain <==> raw == Some("PLACEMENT_UNCERTAIN")
  {
    if raw == None { NullKeepsPolling(); } else { KeyOfUncertain(); }
    RefundListsAgree(raw);
  }

  lemma NullKeepsPolling()
    ensures ToInternalStatus(None) == Processing
  {
    assert Key(None) == "";
    assert forall k | k in COMPLETED_KEYS + PARTIAL_KEYS + CANCELED_KEYS + FAILED_KEYS :: |k| > 0;
  }

  lemma RefundListsAgree(raw: Option<string>)
    ensures RequiresRefundRaw(raw) <==> ToInternalStatus(raw) in {Partial, Canceled, Failed}
  {
    FirstLetters(Key(raw));
    assert PARTIAL_KEYS + CANCELED_KEYS + FAILED_KEYS ==
      {"cancelled", "canceled", "cancel", "failed", "fail", "error", "reject", "rejected",
       "refunded", "expired", "partial", "partially_completed", "partial_complete"};
  }

  // Blanks around a status, and its case, make no difference.
  lemma {:induction false} BlanksIgnored(before: string, s: string, after: string)
    requires forall i :: 0 <= i < |before| ==> IsBlank(before[i])
    requires forall i :: 0 <= i < |after| ==> IsBlank(after[i])
    ensures TrimRight(TrimLeft(before + s + after)) == TrimRight(TrimLeft(s))
    decreases |before| + |after|
  {
    if before != [] {
      assert (before + s + after)[1..] == before[1..] + s + after;
      BlanksIgnored(before[1..], s, after);
    } else if after != [] {
      var init := after[..|after| - 1];
      assert before + s + after == (s + init) + [after[|after| - 1]] && before + s + init == s + init;
      LastBlank(s + init, after[|after| - 1]);
      BlanksIgnored(before, s, init);
    } else {
      assert before + s + after == s;
    }
  }

  lemma {:induction false} LastBlank(s: string, c: char)
    requires IsBlank(c)
    ensures TrimRight(TrimLeft(s + [c])) == TrimRight(TrimLeft(s))
  {
    if s == "" {
      assert s + [c] == [c] && [c][1..] == "";
    } else if IsBlank(s[0]) {
      assert (s + [c])[1..] == s[1..] + [c];
      LastBlank(s[1..], c);
    } else {
      assert (s + [c])[..|s|] == s;
    }
  }

  // A status that is in none of the lists keeps the order polling.
  lemma UnknownKeepsPolling(raw: Option<string>)
    requires Key(raw) !in COMPLETED_KEYS + PARTIAL_KEYS + CANCELED_KEYS + FAILED_KEYS
    ensures VerdictOf(Classify(raw)) == InFlight && !IsTerminalRaw(raw) && !RequiresRefundRaw(raw)
  {
    ClassifyIsFaithful(raw);
  }
}
