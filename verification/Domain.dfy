// Entities of the order and payment services.

module Domain {
  datatype Status = Pending | Paid | Failed | Cancelled

  datatype Order = Order(id: string, customerID: string, itemName: string, amount: int, status: Status,
                         idempotencyKey: string, requestFingerprint: string, paymentTransactionID: string)

  datatype CreateOrderInput = CreateOrderInput(idempotencyKey: string, customerID: string, itemName: string, amount: int)

  // A status change on its way to the clients of a stream. A time is a number of ticks; 0 is the
  // zero time.
  datatype Update = Update(orderID: string, status: Status, transactionID: string, timestamp: nat)

  datatype PaymentStatus = Authorized | Declined

  datatype Payment = Payment(orderID: string, amount: int, status: PaymentStatus, transactionID: string)

  datatype AuthorizeInput = AuthorizeInput(orderID: string, amount: int, customerEmail: string)

  datatype PaymentCompleted =
    PaymentCompleted(messageID: string, orderID: string, amount: int, customerEmail: string, status: string)

  function StatusText(status: PaymentStatus): string {
    match status
    case Authorized => "Authorized"
    case Declined => "Declined"
  }

  // unicode.IsSpace
  predicate IsSpace(c: char) {
    var n := c as int;
    9 <= n <= 13 || n == 0x20 || n == 0x85 || n == 0xA0 || n == 0x1680 || 0x2000 <= n <= 0x200A
    || n == 0x2028 || n == 0x2029 || n == 0x202F || n == 0x205F || n == 0x3000
  }

  // The white space of ASCII: space, tab, newline, vertical tab, form feed and carriage return.
  lemma SpaceInASCII(c: char)
    requires c as int < 128
    ensures IsSpace(c) <==> c == ' ' || c == '\t' || c == '\n' || c as int == 11 || c as int == 12 || c == '\r'
  {
  }

  // strings.TrimSpace(s) == ""
  predicate Blank(s: string) {
    forall c :: c in s ==> IsSpace(c)
  }

  // strings.TrimLeftFunc(s, unicode.IsSpace)
  function TrimLeft(s: string): string {
    if s != [] && IsSpace(s[0]) then TrimLeft(s[1..]) else s
  }

  // Blank means that trimming leaves nothing.
  lemma {:induction false} BlankIffTrimmedAway(s: string)
    ensures Blank(s) <==> TrimLeft(s) == []
  {
    if s != [] {
      BlankIffTrimmedAway(s[1..]);
      assert s == [s[0]] + s[1..];
      assert s[0] in s;
    }
  }

  function MessageID(orderID: string): string {
    "payment.completed:" + orderID
  }

  function CompletedEvent(payment: Payment, customerEmail: string): PaymentCompleted {
    PaymentCompleted(MessageID(payment.orderID), payment.orderID, payment.amount, customerEmail, StatusText(payment.status))
  }

  // The id of a dead letter.
  function DlqID(messageID: string): string {
    messageID + ":dlq"
  }

  // It is the id of the event of another order.
  lemma DlqIDIsMessageID(orderID: string)
    ensures DlqID(MessageID(orderID)) == MessageID(orderID + ":dlq")
  {
  }

  predicate EndsInDlq(text: string) {
    |text| >= 4 && text[|text| - 4..] == ":dlq"
  }

  lemma DlqEnds(text: string)
    ensures EndsInDlq(text + ":dlq")
  {
  }

  // What uuid.NewString() makes, as far as it matters.
  predicate IsUuid(text: string) {
    text != "" && '0' <= text[0] <= 'f' && !EndsInDlq(text)
  }

  lemma LongerUuid(text: string)
    requires text != "" && '0' <= text[0] <= 'f'
    ensures IsUuid(text + "a")
  {
    var longer := text + "a";
    assert longer[|longer| - 1] == 'a';
  }

  lemma UuidIsNotBlank(text: string)
    requires IsUuid(text)
    ensures !Blank(text)
  {
    assert text[0] in text;
  }

  lemma MessageIDInjective(a: string, b: string)
    requires MessageID(a) == MessageID(b)
    ensures a == b
  {
    var prefix := "payment.completed:";
    assert MessageID(a)[|prefix|..] == a && MessageID(b)[|prefix|..] == b;
  }
}
