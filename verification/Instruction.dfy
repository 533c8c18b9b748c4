/** packages/protocol/src/instruction.js: what the payer signs, and the name of a payment. */
module Instruction {
  import opened Bytes

  datatype PaymentInstruction = PaymentInstruction(
    senderVpa: string,
    receiverVpa: string,
    amountPaise: int,
    nonce: string,
    deviceSequence: int,
    signedAt: int,
    expiresAt: int)

  predicate IsAlphanumeric(c: char) {
    'A' <= c <= 'Z' || 'a' <= c <= 'z' || '0' <= c <= '9'
  }

  predicate IsNameChar(c: char) {
    IsAlphanumeric(c) || c == '.' || c == '_' || c == '-'
  }

  predicate IsHandleChar(c: char) {
    IsAlphanumeric(c) || c == '.' || c == '-'
  }

  predicate IsVpaSplitAt(s: string, at: int) {
    && 2 <= at <= 48 && at < |s| && s[at] == '@'
    && 2 <= |s| - at - 1 <= 15
    && (forall i :: 0 <= i < at ==> IsNameChar(s[i]))
    && (forall i :: at < i < |s| ==> IsHandleChar(s[i]))
  }

  /** name@handle: 2 to 48 name characters, then 2 to 15 handle characters. */
  predicate IsVpa(s: string) {
    exists at :: 0 <= at < |s| && IsVpaSplitAt(s, at)
  }

  predicate IsLowerHex(c: char) {
    '0' <= c <= '9' || 'a' <= c <= 'f'
  }

  predicate IsDashPosition(i: int) {
    i == 8 || i == 13 || i == 18 || i == 23
  }

  /** A lowercase version-4 UUID. */
  predicate IsUuidV4(s: string) {
    && |s| == 36
    && (forall i :: 0 <= i < |s| ==> if IsDashPosition(i) then s[i] == '-' else IsLowerHex(s[i]))
    && s[14] == '4'
    && (s[19] == '8' || s[19] == '9' || s[19] == 'a' || s[19] == 'b')
  }

  predicate WellFormed(p: PaymentInstruction) {
    && IsVpa(p.senderVpa)
    && IsVpa(p.receiverVpa)
    && p.senderVpa != p.receiverVpa
    && 0 < p.amountPaise <= MAX_SAFE
    && IsUuidV4(p.nonce)
    && 1 <= p.deviceSequence <= MAX_SAFE
    && 0 <= p.signedAt <= MAX_SAFE
    && p.signedAt < p.expiresAt <= MAX_SAFE
  }

  /** s is a name of 2 to 48 characters, an at sign, and a handle of 2 to 15. */
  predicate IsNameAtHandle(s: string, name: string, handle: string) {
    && s == name + "@" + handle && 2 <= |name| <= 48 && 2 <= |handle| <= 15
    && (forall i :: 0 <= i < |name| ==>
          'A' <= name[i] <= 'Z' || 'a' <= name[i] <= 'z' || '0' <= name[i] <= '9' || name[i] == '.' || name[i] == '_'
          || name[i] == '-')
    && (forall i :: 0 <= i < |handle| ==>
          'A' <= handle[i] <= 'Z' || 'a' <= handle[i] <= 'z' || '0' <= handle[i] <= '9' || handle[i] == '.'
          || handle[i] == '-')
  }

  /** The VPAs are the names at handles. */
  lemma VpaMeans(s: string)
    ensures IsVpa(s) <==> exists name, handle :: IsNameAtHandle(s, name, handle)
  {
    if IsVpa(s) {
      var at :| 0 <= at < |s| && IsVpaSplitAt(s, at);
      var name, handle := s[..at], s[at + 1..];
      forall i | 0 <= i < |handle|
        ensures IsHandleChar(handle[i])
      {}
      assert s == name + "@" + handle;
      assert IsNameAtHandle(s, name, handle);
    }
    if name, handle :| IsNameAtHandle(s, name, handle) {
      forall i | 0 <= i < |s|
        ensures s[i] == if i < |name| then name[i] else if i == |name| then '@' else handle[i - |name| - 1]
      {}
      assert IsVpaSplitAt(s, |name|);
    }
  }

  /** s is five groups of 8, 4, 4, 4 and 12 lowercase hexadecimal digits with dashes between. */
  predicate IsGrouped(s: string, a: string, b: string, c: string, d: string, e: string) {
    && s == a + "-" + b + "-" + c + "-" + d + "-" + e
    && |a| == 8 && |b| == |c| == |d| == 4 && |e| == 12
    && forall i :: 0 <= i < 32 ==> '0' <= (a + b + c + d + e)[i] <= '9' || 'a' <= (a + b + c + d + e)[i] <= 'f'
  }

  /** The version-4 UUIDs: the third group starts with the version, the fourth with the variant. */
  lemma UuidMeans(s: string)
    ensures IsUuidV4(s) <==>
            exists a, b, c, d, e ::
              && IsGrouped(s, a, b, c, d, e) && c[0] == '4'
              && (d[0] == '8' || d[0] == '9' || d[0] == 'a' || d[0] == 'b')
  {
    if IsUuidV4(s) {
      var a, b, c, d, e := s[..8], s[9..13], s[14..18], s[19..23], s[24..];
      assert s == a + "-" + b + "-" + c + "-" + d + "-" + e;
      assert IsGrouped(s, a, b, c, d, e);
    }
    if a, b, c, d, e :| && IsGrouped(s, a, b, c, d, e) && c[0] == '4'
                        && (d[0] == '8' || d[0] == '9' || d[0] == 'a' || d[0] == 'b') {
      GroupsInPlace(s, a, b, c, d, e);
    }
  }

  lemma GroupsInPlace(s: string, a: string, b: string, c: string, d: string, e: string)
    requires IsGrouped(s, a, b, c, d, e)
    ensures |s| == 36 && s[14] == c[0] && s[19] == d[0]
    ensures forall i :: 0 <= i < |s| ==> if IsDashPosition(i) then s[i] == '-' else IsLowerHex(s[i])
  {
    var digits := a + b + c + d + e;
    forall i | 0 <= i < 36 && !IsDashPosition(i)
      ensures IsLowerHex(s[i])
    {
      var k := if i < 8 then i else if i < 13 then i - 1 else if i < 18 then i - 2 else if i < 23 then i - 3 else i - 4;
      assert s[i] == digits[k];
    }
  }

  /** Sender and nonce: every seal of one payment has the same key. */
  function IdempotencyKey(p: PaymentInstruction): string {
    p.senderVpa + "/" + p.nonce
  }

  /** The key an operator's top-up is posted under (apps/server/src/http/app.js:94). */
  function TopUpKey(reference: string): (key: string)
    ensures IsTopUpKey(key)
  {
    "topup/" + reference
  }

  predicate IsTopUpKey(key: string) {
    "topup/" <= key
  }

  lemma VpaCharacters(s: string, i: nat)
    requires IsVpa(s) && i < |s|
    ensures s[i] != '/'
  {
    var at :| 0 <= at < |s| && IsVpaSplitAt(s, at);
    assert i == at || i < at || i > at;
    if i < at {
      assert IsNameChar(s[i]);
    } else if i > at {
      assert IsHandleChar(s[i]);
    }
  }

  /** Two payments share a key exactly when they share both sender and nonce. */
  lemma KeyNamesPayment(p: PaymentInstruction, q: PaymentInstruction)
    requires WellFormed(p) && WellFormed(q)
    ensures IdempotencyKey(p) == IdempotencyKey(q) <==> p.senderVpa == q.senderVpa && p.nonce == q.nonce
  {
    var k, l := IdempotencyKey(p), IdempotencyKey(q);
    if k == l {
      assert |k| == |p.senderVpa| + 37 && |l| == |q.senderVpa| + 37;
      assert k[..|p.senderVpa|] == p.senderVpa && l[..|q.senderVpa|] == q.senderVpa;
      assert k[|p.senderVpa| + 1..] == p.nonce && l[|q.senderVpa| + 1..] == q.nonce;
    }
  }

  /** No operator top-up, whatever its reference, takes the key of a payment. */
  lemma KeyIsNotATopUp(p: PaymentInstruction)
    requires WellFormed(p)
    ensures !IsTopUpKey(IdempotencyKey(p))
    ensures forall reference :: TopUpKey(reference) != IdempotencyKey(p)
  {
    var k, t := IdempotencyKey(p), "topup/";
    var n := |p.senderVpa|;
    if n > 5 {
      VpaCharacters(p.senderVpa, 5);
      assert k[5] == p.senderVpa[5] && t[5] == '/';
    } else {
      var at :| 0 <= at < n && IsVpaSplitAt(p.senderVpa, at);
      assert k[at] == '@' && t[at] == "topup"[at];
    }
  }
}
