/**
 * Payment-notification intake. A notification carries a signature that must be
 * the SHA-256 hex digest of a message built from its own fields and a shared
 * secret; accepted notifications are booked once per transaction id.
 */
module Webhook {
  import opened Wrappers
  import opened Errors
  import opened Models
  import opened Schemas
  import opened Crud
  import opened Strings
  import opened Externals

  const PaymentProcessed := "Payment processed successfully"

  /** A payload value, as `payload.dict()` holds it. */
  datatype FieldValue = Text(s: string) | Integer(i: int) | Float(x: real)

  /** `payload.dict().items()`, in the order the fields are declared. */
  function Items(p: WebhookPayload): seq<(string, FieldValue)>
  {
    [("transaction_id", Text(p.transactionId)),
     ("user_id", Integer(p.userId)),
     ("account_id", Integer(p.accountId)),
     ("amount", Float(p.amount)),
     ("signature", Text(p.signature))]
  }

  /** Python's `str(v)`. */
  function PyStr(v: FieldValue, prims: Primitives): string
  {
    match v
    case Text(s) => s
    case Integer(i) => IntStr(i)
    case Float(x) => prims.floatRepr(x)
  }

  /** `''.join(str(v) for k, v in items)`. */
  function Concat(items: seq<(string, FieldValue)>, prims: Primitives): string
  {
    if items == [] then "" else PyStr(items[0].1, prims) + Concat(items[1..], prims)
  }

  /** The string that is hashed: values in key order, the last one dropped, the secret appended. */
  function SignedMessage(p: WebhookPayload, secretKey: string, prims: Primitives): string
  {
    var sorted := SortByKey(Items(p));
    var popped := sorted[..|sorted| - 1];
    Concat(popped + [("secret_key", Text(secretKey))], prims)
  }

  /** Every key is smaller than each key after it. */
  predicate Ascending(keys: seq<string>)
  {
    forall i, j :: 0 <= i < j < |keys| ==> Less(keys[i], keys[j])
  }

  /** The payload's keys in ascending order. */
  lemma KeyOrder()
    ensures Ascending(["account_id", "amount", "signature", "transaction_id", "user_id"])
  {
  }

  /**
   * `sorted` on five fields whose keys ascend as acc, amt, sig, tx, uid, given in
   * the order tx, uid, acc, amt, sig: the insertion sort from the back.
   */
  lemma SortFive<V>(tx: (string, V), uid: (string, V), acc: (string, V), amt: (string, V), sig: (string, V))
    requires Ascending([acc.0, amt.0, sig.0, tx.0, uid.0])
    ensures SortByKey([tx, uid, acc, amt, sig]) == [acc, amt, sig, tx, uid]
  {
    var keys := [acc.0, amt.0, sig.0, tx.0, uid.0];
    assert Less(acc.0, amt.0) && Less(amt.0, sig.0) && Less(sig.0, uid.0) && Less(acc.0, uid.0) && Less(amt.0, uid.0)
      by { assert keys[0] == acc.0 && keys[1] == amt.0 && keys[2] == sig.0 && keys[4] == uid.0; }
    assert Less(acc.0, tx.0) && Less(amt.0, tx.0) && Less(sig.0, tx.0) && Less(tx.0, uid.0)
      by { assert keys[0] == acc.0 && keys[1] == amt.0 && keys[2] == sig.0 && keys[3] == tx.0 && keys[4] == uid.0; }
    LessAsymmetric(acc.0, amt.0);
    LessAsymmetric(amt.0, sig.0);
    LessAsymmetric(tx.0, uid.0);
    SortThree(acc, amt, sig);
    UserLast(uid, acc, amt, sig);
    assert [tx, uid, acc, amt, sig][1..] == [uid, acc, amt, sig];
    assert [uid, acc, amt, sig][1..] == [acc, amt, sig];
    TransactionFourth(tx, acc, amt, sig, uid);
  }

  /** Three fields already in key order stay as they are. */
  lemma SortThree<V>(acc: (string, V), amt: (string, V), sig: (string, V))
    requires !Less(amt.0, acc.0) && !Less(sig.0, amt.0)
    ensures SortByKey([acc, amt, sig]) == [acc, amt, sig]
  {
    assert [sig][1..] == [];
    assert SortByKey([sig]) == [sig];
    assert [amt, sig][1..] == [sig];
    assert SortByKey([amt, sig]) == [amt, sig];
    assert [acc, amt, sig][1..] == [amt, sig];
  }

  /** A key larger than three sorted keys goes to the end. */
  lemma UserLast<V>(uid: (string, V), acc: (string, V), amt: (string, V), sig: (string, V))
    requires SortedByKey([acc, amt, sig])
    requires Less(acc.0, uid.0) && Less(amt.0, uid.0) && Less(sig.0, uid.0)
    ensures InsertByKey(uid, [acc, amt, sig]) == [acc, amt, sig, uid]
  {
    assert [acc, amt, sig][1..] == [amt, sig];
    assert [amt, sig][1..] == [sig];
    assert [sig][1..] == [];
    assert InsertByKey(uid, []) == [uid];
    assert InsertByKey(uid, [sig]) == [sig] + InsertByKey(uid, []);
    assert InsertByKey(uid, [amt, sig]) == [amt] + InsertByKey(uid, [sig]);
  }

  /** Inserting a key no larger than the first puts it in front. */
  lemma InsertFront<V>(x: (string, V), s: seq<(string, V)>)
    requires SortedByKey(s)
    requires s == [] || !Less(s[0].0, x.0)
    ensures InsertByKey(x, s) == [x] + s
  {
  }

  /** Inserting a key larger than the first passes the first by. */
  lemma InsertPast<V>(x: (string, V), s: seq<(string, V)>)
    requires SortedByKey(s) && s != [] && Less(s[0].0, x.0)
    ensures SortedByKey(s[1..])
    ensures InsertByKey(x, s) == [s[0]] + InsertByKey(x, s[1..])
  {
  }

  /** A key between the third and the fourth of four sorted keys goes fourth. */
  lemma TransactionFourth<V>(tx: (string, V), acc: (string, V), amt: (string, V), sig: (string, V), uid: (string, V))
    requires SortedByKey([acc, amt, sig, uid])
    requires Less(acc.0, tx.0) && Less(amt.0, tx.0) && Less(sig.0, tx.0) && !Less(uid.0, tx.0)
    ensures InsertByKey(tx, [acc, amt, sig, uid]) == [acc, amt, sig, tx, uid]
  {
    var s4 := [acc, amt, sig, uid];
    var s3, s2, s1 := s4[1..], s4[2..], s4[3..];
    assert s3 == [amt, sig, uid] && s3[1..] == s2 && s2[1..] == s1;
    assert s2 == [sig, uid] && s1 == [uid];
    InsertPast(tx, s4);
    InsertPast(tx, s3);
    InsertPast(tx, s2);
    InsertFront(tx, s1);
    assert InsertByKey(tx, s1) == [tx, uid];
    assert InsertByKey(tx, s2) == [sig, tx, uid];
    assert InsertByKey(tx, s3) == [amt, sig, tx, uid];
  }

  /** `sorted(payload.dict().items())`: account_id, amount, signature, transaction_id, user_id. */
  lemma SortedItems(p: WebhookPayload)
    ensures SortByKey(Items(p))
            == [("account_id", Integer(p.accountId)), ("amount", Float(p.amount)), ("signature", Text(p.signature)),
                ("transaction_id", Text(p.transactionId)), ("user_id", Integer(p.userId))]
  {
    var tx, uid, acc, amt, sig :=
      ("transaction_id", Text(p.transactionId)), ("user_id", Integer(p.userId)),
      ("account_id", Integer(p.accountId)), ("amount", Float(p.amount)), ("signature", Text(p.signature));
    assert Items(p) == [tx, uid, acc, amt, sig];
    KeyOrder();
    SortFive(tx, uid, acc, amt, sig);
  }

  /** The join over the four signed fields and the secret. */
  lemma ConcatMessage(p: WebhookPayload, secretKey: string, prims: Primitives)
    ensures Concat([("account_id", Integer(p.accountId)), ("amount", Float(p.amount)), ("signature", Text(p.signature)),
                    ("transaction_id", Text(p.transactionId)), ("secret_key", Text(secretKey))], prims)
            == IntStr(p.accountId) + prims.floatRepr(p.amount) + p.signature + p.transactionId + secretKey
  {
    var message := [("account_id", Integer(p.accountId)), ("amount", Float(p.amount)), ("signature", Text(p.signature)),
                    ("transaction_id", Text(p.transactionId)), ("secret_key", Text(secretKey))];
    var m1, m2, m3, m4 := message[1..], message[1..][1..], message[1..][1..][1..], message[1..][1..][1..][1..];
    assert m4 == [("secret_key", Text(secretKey))] && m4[1..] == [];
    assert Concat(m4, prims) == secretKey;
    assert Concat(m3, prims) == p.transactionId + secretKey;
    assert Concat(m2, prims) == p.signature + (p.transactionId + secretKey);
    assert Concat(m1, prims) == prims.floatRepr(p.amount) + (p.signature + (p.transactionId + secretKey));
  }

  /** `pop()` then `append(("secret_key", secret))` on the sorted fields. */
  lemma DropLastAppend(sorted: seq<(string, FieldValue)>, p: WebhookPayload, secretKey: string)
    requires sorted == [("account_id", Integer(p.accountId)), ("amount", Float(p.amount)), ("signature", Text(p.signature)),
                        ("transaction_id", Text(p.transactionId)), ("user_id", Integer(p.userId))]
    ensures sorted[..|sorted| - 1] + [("secret_key", Text(secretKey))]
            == [("account_id", Integer(p.accountId)), ("amount", Float(p.amount)), ("signature", Text(p.signature)),
                ("transaction_id", Text(p.transactionId)), ("secret_key", Text(secretKey))]
  {
  }

  /**
   * Sorting the keys puts `user_id` last, so the dropped value is the user id,
   * and the message covers the signature itself.
   */
  lemma SignedMessageFields(p: WebhookPayload, secretKey: string, prims: Primitives)
    ensures SignedMessage(p, secretKey, prims)
            == IntStr(p.accountId) + prims.floatRepr(p.amount) + p.signature + p.transactionId + secretKey
  {
    SortedItems(p);
    DropLastAppend(SortByKey(Items(p)), p, secretKey);
    ConcatMessage(p, secretKey, prims);
  }

  /** `verify_signature`: the digest of the signed message must equal the supplied signature. */
  function VerifySignature(p: WebhookPayload, secretKey: string, prims: Primitives): (r: bool)
    ensures r <==> prims.sha256Hex(IntStr(p.accountId) + prims.floatRepr(p.amount) + p.signature + p.transactionId + secretKey)
                   == p.signature
  {
    SignedMessageFields(p, secretKey, prims);
    prims.sha256Hex(SignedMessage(p, secretKey, prims)) == p.signature
  }

  /** The user id is not signed: changing it never changes the verdict. */
  lemma SignatureIgnoresUserId(p: WebhookPayload, userId: int, secretKey: string, prims: Primitives)
    ensures VerifySignature(p.(userId := userId), secretKey, prims) == VerifySignature(p, secretKey, prims)
  {
  }

  /**
   * The alternative message: account id, amount, transaction id and user id,
   * that is the other fields in key order with the signature left out, then
   * the secret.
   */
  function SenderMessage(p: WebhookPayload, secretKey: string, prims: Primitives): string
  {
    IntStr(p.accountId) + prims.floatRepr(p.amount) + p.transactionId + IntStr(p.userId) + secretKey
  }

  /**
   * The hashed message and the alternative one have the same length exactly
   * when the signature is as long as the user id's decimal text; so for every
   * other payload the two differ.
   */
  lemma FieldOrderMessage(p: WebhookPayload, secretKey: string, prims: Primitives)
    ensures |SignedMessage(p, secretKey, prims)| == |SenderMessage(p, secretKey, prims)|
            <==> |p.signature| == |IntStr(p.userId)|
    ensures |p.signature| != |IntStr(p.userId)| ==> SignedMessage(p, secretKey, prims) != SenderMessage(p, secretKey, prims)
  {
    SignedMessageFields(p, secretKey, prims);
  }

  /**
   * For a digest of 64 hex characters and a user id in the range of an
   * `Integer` column, a signature over the alternative message is checked against
   * a different message, so it verifies only if the two messages collide.
   */
  lemma FieldOrderSignature(p: WebhookPayload, secretKey: string, prims: Primitives)
    requires forall m :: |prims.sha256Hex(m)| == 64
    requires -0x8000_0000 <= p.userId < 0x8000_0000
    requires p.signature == prims.sha256Hex(SenderMessage(p, secretKey, prims))
    ensures SignedMessage(p, secretKey, prims) != SenderMessage(p, secretKey, prims)
    ensures VerifySignature(p, secretKey, prims)
            <==> prims.sha256Hex(SignedMessage(p, secretKey, prims)) == prims.sha256Hex(SenderMessage(p, secretKey, prims))
  {
    assert Pow10(10) == 10000000000;
    if p.userId < 0 {
      NatStrLength(-p.userId, 10);
    } else {
      NatStrLength(p.userId, 10);
    }
    assert |IntStr(p.userId)| <= 11;
    FieldOrderMessage(p, secretKey, prims);
    SignedMessageFields(p, secretKey, prims);
  }

  /** The account a notification is booked on, before its amount is added. */
  function Target(store: Store, p: WebhookPayload): Account
    reads store
  {
    if p.accountId in store.accounts then store.accounts[p.accountId]
    else Account(p.accountId, DefaultBalance, p.userId)
  }

  /** Whether a verified notification is booked: its transaction is new and its account exists or can be created. */
  predicate Bookable(store: Store, p: WebhookPayload)
    reads store
    requires store.Valid()
  {
    && store.GetPaymentByTransactionId(p.transactionId).None?
    && (p.accountId in store.accounts || p.userId in store.users)
  }

  lemma {:induction false} LedgerSumUnbooked(ledger: seq<Payment>, accountId: int)
    requires forall i :: 0 <= i < |ledger| ==> ledger[i].accountId != accountId
    ensures LedgerSum(ledger, accountId) == 0.0
  {
    if ledger != [] {
      LedgerSumUnbooked(ledger[1..], accountId);
    }
  }

  /**
   * Appending a payment to the ledger while crediting its own account by its
   * amount keeps every account's balance minus its ledger sum.
   */
  lemma CreditKeepsUnledgered(before: map<int, Account>, prior: Account, ledger: seq<Payment>, pay: Payment, a: int)
    requires pay.accountId in before ==> before[pay.accountId] == prior
    requires a in before
    ensures var after := before[pay.accountId := prior.(balance := prior.balance + pay.amount)];
            after[a].balance - LedgerSum(ledger + [pay], a) == before[a].balance - LedgerSum(ledger, a)
  {
    LedgerSumAppend(ledger, pay, a);
  }

  /**
   * Opens the notification's account with balance 0 when it is missing; an
   * absent owner makes the insert fail. A new account has no payments yet.
   */
  method OpenAccount(store: Store, payload: WebhookPayload) returns (r: Result<string, Error>)
    requires store.Valid()
    modifies store`accounts
    ensures store.Valid()
    ensures r.Ok? <==> payload.accountId in old(store.accounts) || payload.userId in store.users
    ensures r.Ok? ==> r.value == PaymentProcessed && store.accounts == old(store.accounts)[payload.accountId := old(Target(store, payload))]
    ensures r.Err? ==> r == Err(Unhandled(IntegrityError)) && store.accounts == old(store.accounts)
    ensures r.Ok? && payload.accountId !in old(store.accounts) ==> LedgerSum(store.payments, payload.accountId) == 0.0
  {
    var account := store.GetAccountById(payload.accountId);
    if account.Some? {
      return Ok(PaymentProcessed);
    }
    forall i | 0 <= i < |store.payments|
      ensures store.payments[i].accountId != payload.accountId
    {
    }
    LedgerSumUnbooked(store.payments, payload.accountId);
    var created := store.CreateAccount(Account(payload.accountId, DefaultBalance, payload.userId));
    if created.Err? {
      return Err(Unhandled(created.error));
    }
    r := Ok(PaymentProcessed);
  }

  /**
   * Records the payment of a new transaction on an existing account, then
   * credits that account by the amount.
   */
  method Record(store: Store, payload: WebhookPayload) returns (booked: Payment)
    requires store.Valid()
    requires store.GetPaymentByTransactionId(payload.transactionId).None? && payload.accountId in store.accounts
    modifies store`accounts, store`payments, store`paymentSeq
    ensures store.Valid()
    ensures booked == Payment(old(store.paymentSeq), payload.transactionId, payload.amount, payload.accountId)
    ensures store.payments == old(store.payments) + [booked] && store.paymentSeq == old(store.paymentSeq) + 1
    ensures var prior := old(store.accounts)[payload.accountId];
            store.accounts == old(store.accounts)[payload.accountId := prior.(balance := prior.balance + payload.amount)]
  {
    var created := store.CreatePayment(payload.transactionId, payload.amount, payload.accountId);
    booked := created.value;
    store.UpdateAccountBalance(payload.accountId, payload.amount);
  }

  /** Helper: crediting the account just written leaves one write, of the credited account. */
  lemma CreditAfterOpen(before: map<int, Account>, k: int, prior: Account, amount: real,
                        opening: map<int, Account>, after: map<int, Account>)
    requires opening == before[k := prior]
    requires after == opening[k := opening[k].(balance := opening[k].balance + amount)]
    ensures after == before[k := prior.(balance := prior.balance + amount)]
  {
  }

  /**
   * The intake steps for a transaction id not yet booked: open the account if
   * it is missing, record the payment, credit the balance.
   */
  method Deposit(store: Store, payload: WebhookPayload) returns (r: Result<string, Error>)
    requires store.Valid() && store.GetPaymentByTransactionId(payload.transactionId).None?
    modifies store`accounts, store`payments, store`paymentSeq
    ensures store.Valid()
    ensures r.Ok? <==> payload.accountId in old(store.accounts) || payload.userId in store.users
    ensures r.Err? ==> r == Err(Unhandled(IntegrityError)) && unchanged(store)
    ensures r.Ok? ==>
      var prior := old(Target(store, payload));
      && r.value == PaymentProcessed
      && store.accounts == old(store.accounts)[payload.accountId := prior.(balance := prior.balance + payload.amount)]
      && store.payments == old(store.payments) + [Payment(old(store.paymentSeq), payload.transactionId, payload.amount, payload.accountId)]
      && store.paymentSeq == old(store.paymentSeq) + 1
    ensures r.Ok? ==> forall a :: a in old(store.accounts) ==> store.Unledgered(a) == old(store.Unledgered(a))
    ensures r.Ok? && payload.accountId !in old(store.accounts) ==> store.Unledgered(payload.accountId) == 0.0
  {
    ghost var before := store.accounts;
    ghost var prior := Target(store, payload);
    r := OpenAccount(store, payload);
    if r.Err? {
      return;
    }
    ghost var ledger := store.payments;
    ghost var mid := store.accounts;
    var booked := Record(store, payload);
    CreditAfterOpen(before, payload.accountId, prior, payload.amount, mid, store.accounts);
    forall a | a in before
      ensures store.Unledgered(a) == old(store.Unledgered(a))
    {
      CreditKeepsUnledgered(before, prior, ledger, booked, a);
    }
    LedgerSumAppend(ledger, booked, payload.accountId);
  }

  /**
   * The intake steps after the signature check: refuse a known transaction id,
   * then `Deposit`.
   */
  method Book(store: Store, payload: WebhookPayload) returns (r: Result<string, Error>)
    requires store.Valid()
    modifies store`accounts, store`payments, store`paymentSeq
    ensures store.Valid()
    ensures store.users == old(store.users) && store.userSeq == old(store.userSeq)
    ensures old(store.GetPaymentByTransactionId(payload.transactionId)).Some? ==>
              r == Err(Status(BadRequest, AlreadyProcessed)) && unchanged(store)
    ensures old(store.GetPaymentByTransactionId(payload.transactionId)).None?
            && payload.accountId !in old(store.accounts) && payload.userId !in old(store.users) ==>
              r == Err(Unhandled(IntegrityError)) && unchanged(store)
    ensures r.Ok? <==> old(Bookable(store, payload))
    ensures r.Ok? ==>
      var prior := old(Target(store, payload));
      && r.value == PaymentProcessed
      && store.accounts == old(store.accounts)[payload.accountId := prior.(balance := prior.balance + payload.amount)]
      && store.payments == old(store.payments) + [Payment(old(store.paymentSeq), payload.transactionId, payload.amount, payload.accountId)]
      && store.paymentSeq == old(store.paymentSeq) + 1
    ensures r.Ok? ==> forall a :: a in old(store.accounts) ==> store.Unledgered(a) == old(store.Unledgered(a))
    ensures r.Ok? && payload.accountId !in old(store.accounts) ==> store.Unledgered(payload.accountId) == 0.0
  {
    var payment := store.GetPaymentByTransactionId(payload.transactionId);
    if payment.Some? {
      return Err(Status(BadRequest, AlreadyProcessed));
    }
    r := Deposit(store, payload);
  }

  /** `POST /webhook`: a notification whose signature does not verify changes nothing. */
  method ProcessWebhook(store: Store, payload: WebhookPayload, secretKey: string, prims: Primitives)
    returns (r: Result<string, Error>)
    requires store.Valid()
    modifies store
    ensures store.Valid()
    ensures store.users == old(store.users) && store.userSeq == old(store.userSeq)
    ensures !VerifySignature(payload, secretKey, prims) ==>
              r == Err(Status(BadRequest, InvalidSignature)) && unchanged(store)
    ensures VerifySignature(payload, secretKey, prims) && old(store.GetPaymentByTransactionId(payload.transactionId)).Some? ==>
              r == Err(Status(BadRequest, AlreadyProcessed)) && unchanged(store)
    ensures VerifySignature(payload, secretKey, prims) && old(store.GetPaymentByTransactionId(payload.transactionId)).None?
            && payload.accountId !in old(store.accounts) && payload.userId !in old(store.users) ==>
              r == Err(Unhandled(IntegrityError)) && unchanged(store)
    ensures r.Ok? <==> VerifySignature(payload, secretKey, prims) && old(Bookable(store, payload))
    ensures r.Ok? ==>
      var prior := old(Target(store, payload));
      && r.value == PaymentProcessed
      && store.accounts == old(store.accounts)[payload.accountId := prior.(balance := prior.balance + payload.amount)]
      && store.payments == old(store.payments) + [Payment(old(store.paymentSeq), payload.transactionId, payload.amount, payload.accountId)]
      && store.paymentSeq == old(store.paymentSeq) + 1
    ensures r.Ok? ==> forall a :: a in old(store.accounts) ==> store.Unledgered(a) == old(store.Unledgered(a))
    ensures r.Ok? && payload.accountId !in old(store.accounts) ==> store.Unledgered(payload.accountId) == 0.0
  {
    if !VerifySignature(payload, secretKey, prims) {
      return Err(Status(BadRequest, InvalidSignature));
    }
    r := Book(store, payload);
  }

  /**
   * A sender retrying a notification: once the first delivery is booked, a
   * second one with the same transaction id is refused and books nothing more.
   */
  method Redeliver(store: Store, payload: WebhookPayload, retry: WebhookPayload, secretKey: string, prims: Primitives)
    returns (first: Result<string, Error>, second: Result<string, Error>)
    requires store.Valid()
    requires retry.transactionId == payload.transactionId
    modifies store
    ensures store.Valid()
    ensures first.Ok? ==> second.Err?
    ensures first.Ok? && VerifySignature(retry, secretKey, prims) ==> second == Err(Status(BadRequest, AlreadyProcessed))
    ensures first.Ok? ==>
      var prior := old(Target(store, payload));
      && store.accounts == old(store.accounts)[payload.accountId := prior.(balance := prior.balance + payload.amount)]
      && store.payments == old(store.payments) + [Payment(old(store.paymentSeq), payload.transactionId, payload.amount, payload.accountId)]
  {
    first := ProcessWebhook(store, payload, secretKey, prims);
    if first.Ok? {
      assert store.payments[|store.payments| - 1].transactionId == payload.transactionId;
    }
    second := ProcessWebhook(store, retry, secretKey, prims);
  }
}
