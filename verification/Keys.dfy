/** Identity strings: the idempotency key of an action and the reference its payment link carries. */
module Keys {
  import opened Domain

  newtype Nibble = x: int | 0 <= x < 16

  /** A UUID as its 32 hexadecimal digits. */
  type Uuid = digits: seq<Nibble> | |digits| == 32 witness seq(32, i => 0)

  function HexDigit(n: Nibble): char {
    if n < 10 then ('0' as int + n as int) as char else ('a' as int + n as int - 10) as char
  }

  function Hex(digits: seq<Nibble>): (r: string)
    ensures |r| == |digits|
  {
    seq(|digits|, i requires 0 <= i < |digits| => HexDigit(digits[i]))
  }

  /** The canonical 8-4-4-4-12 form. */
  function Canonical(id: Uuid): (r: string)
    ensures |r| == 36
  {
    Hex(id[..8]) + "-" + Hex(id[8..12]) + "-" + Hex(id[12..16]) + "-" + Hex(id[16..20]) + "-" + Hex(id[20..])
  }

  function ActionName(action: ActionType): string {
    match action
    case Wait => "WAIT"
    case RetrySameMethod => "RETRY_SAME_METHOD"
    case RequestAlternatePaymentMethod => "REQUEST_ALTERNATE_PAYMENT_METHOD"
    case CreatePaymentLink => "CREATE_PAYMENT_LINK"
    case SendRecoveryMessage => "SEND_RECOVERY_MESSAGE"
    case EscalateToHuman => "ESCALATE_TO_HUMAN"
    case Stop => "STOP"
  }

  function IdempotencyKey(caseId: Uuid, recommendationId: Uuid, action: ActionType): string {
    "recovery:" + Canonical(caseId) + ":" + Canonical(recommendationId) + ":" + ActionName(action)
  }

  function PaymentLinkReference(actionId: Uuid): string {
    "rl_" + Hex(actionId)
  }

  lemma HexDigitExactly(n: Nibble)
    ensures HexDigit(n) == "0123456789abcdef"[n as int]
  {
  }

  lemma HexDigitsDiffer(a: Nibble, b: Nibble)
    requires HexDigit(a) == HexDigit(b)
    ensures a == b
  {
  }

  lemma HexIsInjective(a: seq<Nibble>, b: seq<Nibble>)
    requires Hex(a) == Hex(b)
    ensures a == b
  {
    assert |a| == |Hex(a)| == |Hex(b)| == |b|;
    forall i | 0 <= i < |a|
      ensures a[i] == b[i]
    {
      assert Hex(a)[i] == Hex(b)[i];
      HexDigitsDiffer(a[i], b[i]);
    }
  }

  lemma CanonicalParts(id: Uuid)
    ensures Canonical(id)[..8] == Hex(id[..8]) && Canonical(id)[9..13] == Hex(id[8..12])
    ensures Canonical(id)[14..18] == Hex(id[12..16]) && Canonical(id)[19..23] == Hex(id[16..20])
    ensures Canonical(id)[24..] == Hex(id[20..])
  {
  }

  lemma CanonicalIsInjective(a: Uuid, b: Uuid)
    requires Canonical(a) == Canonical(b)
    ensures a == b
  {
    CanonicalParts(a);
    CanonicalParts(b);
    HexIsInjective(a[..8], b[..8]);
    HexIsInjective(a[8..12], b[8..12]);
    HexIsInjective(a[12..16], b[12..16]);
    HexIsInjective(a[16..20], b[16..20]);
    HexIsInjective(a[20..], b[20..]);
    assert a == a[..8] + a[8..12] + a[12..16] + a[16..20] + a[20..];
    assert b == b[..8] + b[8..12] + b[12..16] + b[16..20] + b[20..];
  }

  lemma ActionNamesDiffer(a: ActionType, b: ActionType)
    requires ActionName(a) == ActionName(b)
    ensures a == b
  {
    assert |ActionName(a)| == |ActionName(b)|;
    assert ActionName(a)[0] == ActionName(b)[0];
  }

  lemma KeyParts(caseId: Uuid, recommendationId: Uuid, action: ActionType)
    ensures var key := IdempotencyKey(caseId, recommendationId, action);
            && |key| >= 83 && key[..9] == "recovery:" && key[45] == ':' && key[82] == ':'
            && key[9..45] == Canonical(caseId) && key[46..82] == Canonical(recommendationId)
            && key[83..] == ActionName(action)
  {
  }

  /** Two actions share an idempotency key only if they share case, recommendation and type. */
  lemma KeyIdentifiesAction(case1: Uuid, rec1: Uuid, action1: ActionType, case2: Uuid, rec2: Uuid, action2: ActionType)
    ensures IdempotencyKey(case1, rec1, action1) == IdempotencyKey(case2, rec2, action2)
       <==> case1 == case2 && rec1 == rec2 && action1 == action2
  {
    if IdempotencyKey(case1, rec1, action1) == IdempotencyKey(case2, rec2, action2) {
      KeyParts(case1, rec1, action1);
      KeyParts(case2, rec2, action2);
      CanonicalIsInjective(case1, case2);
      CanonicalIsInjective(rec1, rec2);
      ActionNamesDiffer(action1, action2);
    }
  }

  /** The reference fits the provider's forty characters, so the length guard never fires, and names one action. */
  lemma ReferenceIdentifiesAction(a: Uuid, b: Uuid)
    ensures |PaymentLinkReference(a)| == 35 <= 40
    ensures PaymentLinkReference(a) == PaymentLinkReference(b) <==> a == b
  {
    if PaymentLinkReference(a) == PaymentLinkReference(b) {
      assert PaymentLinkReference(a)[3..] == Hex(a) && PaymentLinkReference(b)[3..] == Hex(b);
      HexIsInjective(a, b);
    }
  }

  const NIL: Uuid := seq(32, i => 0)

  lemma HexOfZeros(digits: seq<Nibble>, zeros: string)
    requires |digits| == |zeros| && forall i :: 0 <= i < |zeros| ==> digits[i] == 0 && zeros[i] == '0'
    ensures Hex(digits) == zeros
  {
  }

  lemma NilCanonical()
    ensures Canonical(NIL) == "00000000-0000-0000-0000-000000000000"
  {
    HexOfZeros(NIL[..8], "00000000");
    HexOfZeros(NIL[8..12], "0000");
    HexOfZeros(NIL[12..16], "0000");
    HexOfZeros(NIL[16..20], "0000");
    HexOfZeros(NIL[20..], "000000000000");
  }

  /** The reference of the nil id, letter by letter. */
  lemma NilReference()
    ensures PaymentLinkReference(NIL) == "rl_00000000000000000000000000000000"
  {
    HexOfZeros(NIL, "00000000000000000000000000000000");
  }
}
