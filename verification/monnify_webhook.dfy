/** Monnify webhook authentication: the SHA-512 digest over the pipe-joined
    notification fields (`calculateHash`) and the equality check against the
    notification's own `transactionHash` (`verifyWebhookSignature`). The
    digest is a parameter; nothing is assumed of it, injectivity included. */
module MonnifyWebhook {
  import opened Results
  import opened Js

  /** The string the digest is taken over: client secret, transaction
      reference, amount paid, payment time and payment reference, each as a
      template literal writes it, joined by `|` with none at either end. */
  function PreImage(clientSecret: Value, transactionReference: Value, amountPaid: Value, paidOn: Value,
                    paymentReference: Value): string {
    ToStr(clientSecret) + "|" + ToStr(transactionReference) + "|" + ToStr(amountPaid) + "|"
      + ToStr(paidOn) + "|" + ToStr(paymentReference)
  }

  /** Whether all five pre-image values can be written by a template literal. */
  predicate Writable(clientSecret: Value, transactionReference: Value, amountPaid: Value, paidOn: Value,
                     paymentReference: Value) {
    && Convertible(clientSecret) && Convertible(transactionReference) && Convertible(amountPaid)
    && Convertible(paidOn) && Convertible(paymentReference)
  }

  /** `calculateHash(...)`: the hex digest of the pre-image, or the TypeError
      the template literal throws on a value it cannot write. */
  function CalculateHash(sha512: string -> string, clientSecret: Value, transactionReference: Value,
                         amountPaid: Value, paidOn: Value, paymentReference: Value): (r: Result<string, Fault>)
    ensures r.Success? <==> Writable(clientSecret, transactionReference, amountPaid, paidOn, paymentReference)
    ensures r.Failure? ==> r.error == TypeError
  {
    if Writable(clientSecret, transactionReference, amountPaid, paidOn, paymentReference)
    then Success(sha512(PreImage(clientSecret, transactionReference, amountPaid, paidOn, paymentReference)))
    else Failure(TypeError)
  }

  /** Whether the secret and a notification's four signed fields can be written. */
  predicate SignableWith(clientSecret: Value, data: Value) {
    Writable(clientSecret, Field(data, "transactionReference"), Field(data, "amountPaid"), Field(data, "paidOn"),
             Field(data, "paymentReference"))
  }

  /** The digest over a notification's own fields. */
  function ExpectedHash(sha512: string -> string, clientSecret: Value, data: Value): string {
    sha512(PreImage(clientSecret, Field(data, "transactionReference"), Field(data, "amountPaid"),
                    Field(data, "paidOn"), Field(data, "paymentReference")))
  }

  /** `verifyWebhookSignature(clientSecret, data)`: accepts exactly when the
      notification's `transactionHash` is the string the digest produces over
      its own fields. Destructuring a null or undefined notification throws,
      and so does hashing a secret or field that cannot be written. */
  function VerifyWebhookSignature(sha512: string -> string, clientSecret: Value, data: Value): (r: Result<bool, Fault>)
    ensures r.Failure? <==> Nullish(data) || !SignableWith(clientSecret, data)
    ensures r.Failure? ==> r.error == TypeError
    ensures r.Success? ==> (r.value <==> Field(data, "transactionHash") == Str(ExpectedHash(sha512, clientSecret, data)))
  {
    if Nullish(data) then Failure(TypeError)
    else
      match CalculateHash(sha512, clientSecret, Field(data, "transactionReference"), Field(data, "amountPaid"),
                          Field(data, "paidOn"), Field(data, "paymentReference"))
      case Failure(e) => Failure(e)
      case Success(calculated) => Success(Str(calculated) == Field(data, "transactionHash"))
  }

  // ---------------------------------------------------------------------------
  // The sender's side

  /** A notification as the provider posts it. */
  function Notification(transactionReference: Value, amountPaid: Value, paidOn: Value, paymentReference: Value,
                        transactionHash: Value): Value {
    Obj(map["transactionReference" := transactionReference, "amountPaid" := amountPaid, "paidOn" := paidOn,
            "paymentReference" := paymentReference, "transactionHash" := transactionHash])
  }

  /** A notification the provider signs with `clientSecret`: the digest over
      its own fields' pre-image. */
  function Signed(sha512: string -> string, clientSecret: Value, transactionReference: Value, amountPaid: Value,
                  paidOn: Value, paymentReference: Value): Value {
    Notification(transactionReference, amountPaid, paidOn, paymentReference,
                 Str(sha512(PreImage(clientSecret, transactionReference, amountPaid, paidOn, paymentReference))))
  }

  /** The verdict on a notification, read off its five fields. */
  lemma VerifyNotification(sha512: string -> string, clientSecret: Value, transactionReference: Value,
                           amountPaid: Value, paidOn: Value, paymentReference: Value, hash: Value)
    ensures var pre := PreImage(clientSecret, transactionReference, amountPaid, paidOn, paymentReference);
            var d := Notification(transactionReference, amountPaid, paidOn, paymentReference, hash);
      VerifyWebhookSignature(sha512, clientSecret, d)
        == (if Writable(clientSecret, transactionReference, amountPaid, paidOn, paymentReference)
            then Success(Str(sha512(pre)) == hash) else Failure(TypeError))
  {
    var d := Notification(transactionReference, amountPaid, paidOn, paymentReference, hash);
    assert Field(d, "transactionReference") == transactionReference && Field(d, "amountPaid") == amountPaid;
    assert Field(d, "paidOn") == paidOn && Field(d, "paymentReference") == paymentReference;
  }

  /** Round trip: whatever the digest, a notification signed with the same
      secret over the same fields is accepted — unless one of them cannot be
      written, which throws. */
  lemma SignedNotificationVerifies(sha512: string -> string, clientSecret: Value, transactionReference: Value,
                                   amountPaid: Value, paidOn: Value, paymentReference: Value)
    ensures var r := VerifyWebhookSignature(sha512, clientSecret,
                       Signed(sha512, clientSecret, transactionReference, amountPaid, paidOn, paymentReference));
      && (Writable(clientSecret, transactionReference, amountPaid, paidOn, paymentReference) ==> r == Success(true))
      && (!Writable(clientSecret, transactionReference, amountPaid, paidOn, paymentReference) ==> r == Failure(TypeError))
  {
    var hash := Str(sha512(PreImage(clientSecret, transactionReference, amountPaid, paidOn, paymentReference)));
    VerifyNotification(sha512, clientSecret, transactionReference, amountPaid, paidOn, paymentReference, hash);
  }

  /** Any other hash value, or a hash that is not a string, is refused. */
  lemma WrongHashRejected(sha512: string -> string, clientSecret: Value, transactionReference: Value,
                          amountPaid: Value, paidOn: Value, paymentReference: Value, hash: Value)
    requires hash != Str(sha512(PreImage(clientSecret, transactionReference, amountPaid, paidOn, paymentReference)))
    ensures var r := VerifyWebhookSignature(sha512, clientSecret,
                       Notification(transactionReference, amountPaid, paidOn, paymentReference, hash));
      && (Writable(clientSecret, transactionReference, amountPaid, paidOn, paymentReference) ==> r == Success(false))
      && (!Writable(clientSecret, transactionReference, amountPaid, paidOn, paymentReference) ==> r == Failure(TypeError))
  {
    VerifyNotification(sha512, clientSecret, transactionReference, amountPaid, paidOn, paymentReference, hash);
  }

  /** The verdict depends on the four signed fields and the hash only: any
      other property of the notification is ignored. */
  lemma VerdictReadsSignedFieldsOnly(sha512: string -> string, clientSecret: Value, d1: Value, d2: Value)
    requires d1.Obj? && d2.Obj?
    requires forall k :: k in {"transactionReference", "amountPaid", "paidOn", "paymentReference", "transactionHash"}
                         ==> Field(d1, k) == Field(d2, k)
    ensures VerifyWebhookSignature(sha512, clientSecret, d1) == VerifyWebhookSignature(sha512, clientSecret, d2)
  {
    assert Field(d1, "transactionReference") == Field(d2, "transactionReference");
    assert Field(d1, "amountPaid") == Field(d2, "amountPaid");
    assert Field(d1, "paidOn") == Field(d2, "paidOn");
    assert Field(d1, "paymentReference") == Field(d2, "paymentReference");
    assert Field(d1, "transactionHash") == Field(d2, "transactionHash");
  }

  // ---------------------------------------------------------------------------
  // Reading the fields back out of the pre-image

  /** `s.split(sep)` */
  function Split(s: string, sep: char): (parts: seq<string>)
    ensures |parts| >= 1
    decreases |s|
  {
    if s == [] then [""]
    else
      var rest := Split(s[1..], sep);
      if s[0] == sep then [""] + rest else [[s[0]] + rest[0]] + rest[1..]
  }

  lemma {:induction false} SplitWithoutSeparator(a: string, sep: char)
    requires sep !in a
    ensures Split(a, sep) == [a]
  {
    if a != [] {
      SplitWithoutSeparator(a[1..], sep);
      assert [a[0]] + a[1..] == a;
    }
  }

  lemma {:induction false} SplitAtFirstSeparator(a: string, b: string, sep: char)
    requires sep !in a
    ensures Split(a + [sep] + b, sep) == [a] + Split(b, sep)
  {
    var s := a + [sep] + b;
    if a == [] {
      assert s[1..] == b;
    } else {
      assert s[1..] == a[1..] + [sep] + b;
      SplitAtFirstSeparator(a[1..], b, sep);
      assert [a[0]] + a[1..] == a;
    }
  }

  /** Concatenation regrouped to the right. */
  lemma RightNested(a: string, b: string, c: string, d: string, e: string)
    ensures a + "|" + b + "|" + c + "|" + d + "|" + e == a + "|" + (b + "|" + (c + "|" + (d + "|" + e)))
  {
  }

  lemma SplitFive(a: string, b: string, c: string, d: string, e: string)
    requires '|' !in a && '|' !in b && '|' !in c && '|' !in d && '|' !in e
    ensures Split(a + "|" + b + "|" + c + "|" + d + "|" + e, '|') == [a, b, c, d, e]
  {
    RightNested(a, b, c, d, e);
    var t3 := d + "|" + e;
    var t2 := c + "|" + t3;
    var t1 := b + "|" + t2;
    SplitWithoutSeparator(e, '|');
    SplitAtFirstSeparator(d, e, '|');
    SplitAtFirstSeparator(c, t3, '|');
    SplitAtFirstSeparator(b, t2, '|');
    SplitAtFirstSeparator(a, t1, '|');
  }

  /** The pre-image is exactly the five fields in order, separated by `|`:
      splitting it on `|` gives them back whenever none of them contains a `|`. */
  lemma PreImageSplitsIntoFields(clientSecret: Value, transactionReference: Value, amountPaid: Value,
                                 paidOn: Value, paymentReference: Value)
    requires '|' !in ToStr(clientSecret) && '|' !in ToStr(transactionReference) && '|' !in ToStr(amountPaid)
    requires '|' !in ToStr(paidOn) && '|' !in ToStr(paymentReference)
    ensures Split(PreImage(clientSecret, transactionReference, amountPaid, paidOn, paymentReference), '|')
         == [ToStr(clientSecret), ToStr(transactionReference), ToStr(amountPaid), ToStr(paidOn), ToStr(paymentReference)]
  {
    SplitFive(ToStr(clientSecret), ToStr(transactionReference), ToStr(amountPaid), ToStr(paidOn),
              ToStr(paymentReference));
  }

  lemma Regroup(secret: string, reference: string, tail: string, amount: string)
    ensures secret + "|" + (reference + "|" + tail) + "|" + amount
         == secret + "|" + reference + "|" + (tail + "|" + amount)
  {
  }

  /** The signature does not bind field boundaries: moving the tail of the
      transaction reference, from a `|` on, to the front of the amount leaves
      the pre-image, and so the verdict, unchanged, so a notification signed
      for one payload is accepted for a different one. */
  lemma SignatureIgnoresFieldBoundaries(sha512: string -> string, clientSecret: Value, reference: string,
                                        tail: string, amount: string, paidOn: Value, paymentReference: Value)
    ensures var signed := Signed(sha512, clientSecret, Str(reference + "|" + tail), Str(amount), paidOn,
                                 paymentReference);
            var moved := Notification(Str(reference), Str(tail + "|" + amount), paidOn, paymentReference,
                                      Field(signed, "transactionHash"));
      && moved != signed
      && VerifyWebhookSignature(sha512, clientSecret, moved) == VerifyWebhookSignature(sha512, clientSecret, signed)
      && (Convertible(clientSecret) && Convertible(paidOn) && Convertible(paymentReference) ==>
            VerifyWebhookSignature(sha512, clientSecret, moved) == Success(true))
  {
    Regroup(ToStr(clientSecret), reference, tail, amount);
    var signed := Signed(sha512, clientSecret, Str(reference + "|" + tail), Str(amount), paidOn, paymentReference);
    var hash := Field(signed, "transactionHash");
    var moved := Notification(Str(reference), Str(tail + "|" + amount), paidOn, paymentReference, hash);
    assert |Field(moved, "transactionReference").s| < |Field(signed, "transactionReference").s|;
    VerifyNotification(sha512, clientSecret, Str(reference + "|" + tail), Str(amount), paidOn, paymentReference, hash);
    VerifyNotification(sha512, clientSecret, Str(reference), Str(tail + "|" + amount), paidOn, paymentReference, hash);
    assert PreImage(clientSecret, Str(reference), Str(tail + "|" + amount), paidOn, paymentReference)
        == PreImage(clientSecret, Str(reference + "|" + tail), Str(amount), paidOn, paymentReference);
  }

  /** Nor does it bind value types: an amount sent as its numeral instead of
      as the number is given the same verdict under the same hash, and is
      accepted whenever the other fields can be written. */
  lemma SignatureIgnoresAmountType(sha512: string -> string, clientSecret: Value, transactionReference: Value,
                                   n: int, paidOn: Value, paymentReference: Value)
    ensures var signed := Signed(sha512, clientSecret, transactionReference, Num(n), paidOn, paymentReference);
            var retyped := Notification(transactionReference, Str(ToStr(Num(n))), paidOn, paymentReference,
                                        Field(signed, "transactionHash"));
      && retyped != signed
      && VerifyWebhookSignature(sha512, clientSecret, retyped) == VerifyWebhookSignature(sha512, clientSecret, signed)
      && (Writable(clientSecret, transactionReference, Num(n), paidOn, paymentReference) ==>
            VerifyWebhookSignature(sha512, clientSecret, retyped) == Success(true))
  {
    var signed := Signed(sha512, clientSecret, transactionReference, Num(n), paidOn, paymentReference);
    var hash := Field(signed, "transactionHash");
    var retyped := Notification(transactionReference, Str(ToStr(Num(n))), paidOn, paymentReference, hash);
    assert Field(retyped, "amountPaid") != Field(signed, "amountPaid");
    VerifyNotification(sha512, clientSecret, transactionReference, Num(n), paidOn, paymentReference, hash);
    VerifyNotification(sha512, clientSecret, transactionReference, Str(ToStr(Num(n))), paidOn, paymentReference, hash);
    assert ToStr(Str(ToStr(Num(n)))) == ToStr(Num(n));
  }
}
