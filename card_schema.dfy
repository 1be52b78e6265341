/** The billing card schema: one predicate per form field, the order in which
    the schema reports failing fields, and the fixed message each one carries. */
module CardSchema {

  /** The five strings the card form submits. */
  datatype CardData = CardData(
    cardHolderName: string,
    cardNumber: string,
    expirationMonth: string,
    expirationYear: string,
    cvc: string)

  /** The schema's keys, in declaration order. */
  datatype Field = CardHolderName | CardNumber | ExpirationMonth | ExpirationYear | Cvc

  /** One validation failure: the field it belongs to and the text shown under it. */
  datatype Issue = Issue(field: Field, message: string)

  /** The character class `[0-9]`: ASCII digits only. */
  predicate IsAsciiDigit(c: char) {
    '0' <= c <= '9'
  }

  /** An anchored `^[0-9]{n}$`: exactly `n` characters, all ASCII digits. */
  predicate DigitsOfLength(s: string, n: nat) {
    |s| == n && forall i :: 0 <= i < |s| ==> IsAsciiDigit(s[i])
  }

  /** `.min(1)`: any non-empty string, blanks included. */
  predicate ValidCardHolderName(s: string) {
    |s| >= 1
  }

  predicate ValidCardNumber(s: string) {
    DigitsOfLength(s, 16)
  }

  /** `^(0[1-9]|1[0-2])$`: a zero followed by 1-9, or a one followed by 0-2. */
  predicate ValidExpirationMonth(s: string) {
    |s| == 2 &&
    ((s[0] == '0' && '1' <= s[1] <= '9') || (s[0] == '1' && '0' <= s[1] <= '2'))
  }

  predicate ValidExpirationYear(s: string) {
    DigitsOfLength(s, 2)
  }

  predicate ValidCvc(s: string) {
    DigitsOfLength(s, 3)
  }

  predicate FieldValid(card: CardData, f: Field) {
    match f
    case CardHolderName => ValidCardHolderName(card.cardHolderName)
    case CardNumber => ValidCardNumber(card.cardNumber)
    case ExpirationMonth => ValidExpirationMonth(card.expirationMonth)
    case ExpirationYear => ValidExpirationYear(card.expirationYear)
    case Cvc => ValidCvc(card.cvc)
  }

  /** A card record passes the schema when every one of its fields does. */
  predicate IsValid(card: CardData) {
    ValidCardHolderName(card.cardHolderName) &&
    ValidCardNumber(card.cardNumber) &&
    ValidExpirationMonth(card.expirationMonth) &&
    ValidExpirationYear(card.expirationYear) &&
    ValidCvc(card.cvc)
  }

  function Message(f: Field): string {
    match f
    case CardHolderName => "Card holder name is required"
    case CardNumber => "Credit card number must be exactly 16 digits"
    case ExpirationMonth => "Month must be between 01 and 12"
    case ExpirationYear => "Year must be two digits"
    case Cvc => "CVC must be exactly 3 digits"
  }

  predicate HasIssue(issues: seq<Issue>, f: Field) {
    exists k :: 0 <= k < |issues| && issues[k].field == f
  }

  function Check(card: CardData, f: Field): seq<Issue> {
    if FieldValid(card, f) then [] else [Issue(f, Message(f))]
  }

  /** The schema's keys in the order it checks and reports them. */
  const KEYS: seq<Field> := [CardHolderName, CardNumber, ExpirationMonth, ExpirationYear, Cvc]

  /** The issues of the failing fields among `fields`, in the order of `fields`. */
  function IssuesFor(card: CardData, fields: seq<Field>): seq<Issue> {
    if fields == [] then [] else Check(card, fields[0]) + IssuesFor(card, fields[1..])
  }

  /** Every reported issue names a listed field that fails, with that field's message. */
  lemma {:induction false} IssuesAreFailures(card: CardData, fields: seq<Field>)
    ensures forall k :: 0 <= k < |IssuesFor(card, fields)| ==>
      IssuesFor(card, fields)[k].field in fields &&
      !FieldValid(card, IssuesFor(card, fields)[k].field) &&
      IssuesFor(card, fields)[k].message == Message(IssuesFor(card, fields)[k].field)
  {
    if fields != [] {
      var head: seq<Issue>, rest: seq<Issue> := Check(card, fields[0]), IssuesFor(card, fields[1..]);
      IssuesAreFailures(card, fields[1..]);
      forall k | 0 <= k < |head + rest|
        ensures (head + rest)[k].field in fields && !FieldValid(card, (head + rest)[k].field)
        ensures (head + rest)[k].message == Message((head + rest)[k].field)
      {
        if k >= |head| {
          assert (head + rest)[k] == rest[k - |head|];
          assert rest[k - |head|].field in fields[1..];
        }
      }
    }
  }

  /** Every listed field that fails is reported. */
  lemma {:induction false} FailuresAreReported(card: CardData, fields: seq<Field>)
    ensures forall f :: f in fields && !FieldValid(card, f) ==> HasIssue(IssuesFor(card, fields), f)
  {
    if fields != [] {
      var head: seq<Issue>, rest: seq<Issue> := Check(card, fields[0]), IssuesFor(card, fields[1..]);
      FailuresAreReported(card, fields[1..]);
      forall f | f in fields && !FieldValid(card, f) ensures HasIssue(head + rest, f) {
        if f == fields[0] {
          assert (head + rest)[0].field == f;
        } else {
          assert f in fields[1..];
          var k :| 0 <= k < |rest| && rest[k].field == f;
          assert (head + rest)[|head| + k] == rest[k];
        }
      }
    }
  }

  /** A list of distinct fields yields at most one issue per field. */
  lemma {:induction false} OneIssuePerField(card: CardData, fields: seq<Field>)
    requires forall i, j :: 0 <= i < j < |fields| ==> fields[i] != fields[j]
    ensures forall k, m :: 0 <= k < m < |IssuesFor(card, fields)| ==>
      IssuesFor(card, fields)[k].field != IssuesFor(card, fields)[m].field
  {
    if fields != [] {
      var head: seq<Issue>, rest: seq<Issue> := Check(card, fields[0]), IssuesFor(card, fields[1..]);
      OneIssuePerField(card, fields[1..]);
      IssuesAreFailures(card, fields[1..]);
      forall k, m | 0 <= k < m < |head + rest| ensures (head + rest)[k].field != (head + rest)[m].field {
        assert (head + rest)[m] == rest[m - |head|];
        if k < |head| {
          assert rest[m - |head|].field in fields[1..];
        } else {
          assert (head + rest)[k] == rest[k - |head|];
        }
      }
    }
  }

  lemma KeysCoverEveryField(card: CardData)
    ensures forall f :: f in KEYS
    ensures forall i, j :: 0 <= i < j < |KEYS| ==> KEYS[i] != KEYS[j]
    ensures IsValid(card) <==> forall f :: FieldValid(card, f)
  {
    forall f ensures f in KEYS {
      match f
      case CardHolderName => assert KEYS[0] == f;
      case CardNumber => assert KEYS[1] == f;
      case ExpirationMonth => assert KEYS[2] == f;
      case ExpirationYear => assert KEYS[3] == f;
      case Cvc => assert KEYS[4] == f;
    }
    if !IsValid(card) {
      assert !FieldValid(card, CardHolderName) || !FieldValid(card, CardNumber) || !FieldValid(card, ExpirationMonth)
        || !FieldValid(card, ExpirationYear) || !FieldValid(card, Cvc);
    }
  }

  /** Parsing a record against the schema: the issues of the failing fields, in key order. */
  function Validate(card: CardData): (issues: seq<Issue>)
    ensures issues == [] <==> IsValid(card)
    ensures forall f :: HasIssue(issues, f) <==> !FieldValid(card, f)
    ensures forall k :: 0 <= k < |issues| ==> issues[k].message == Message(issues[k].field)
    ensures forall k, m :: 0 <= k < m < |issues| ==> issues[k].field != issues[m].field
  {
    KeysCoverEveryField(card);
    IssuesAreFailures(card, KEYS);
    FailuresAreReported(card, KEYS);
    OneIssuePerField(card, KEYS);
    var issues := IssuesFor(card, KEYS);
    assert issues == [] ==> forall f :: !HasIssue(issues, f);
    assert issues != [] ==> !FieldValid(card, issues[0].field);
    issues
  }

  /** The numeric value of a string of decimal digits. */
  function DecimalValue(s: string): int {
    if s == [] then 0 else 10 * DecimalValue(s[..|s| - 1]) + (s[|s| - 1] as int - '0' as int)
  }

  /** The month pattern accepts exactly the two-digit spellings of the calendar months 1 to 12. */
  lemma {:induction false} MonthIsCalendarMonth(s: string)
    ensures ValidExpirationMonth(s) <==> DigitsOfLength(s, 2) && 1 <= DecimalValue(s) <= 12
  {
    if |s| == 2 {
      assert s[..1][..0] == [];
      assert DecimalValue(s[..1]) == s[0] as int - '0' as int;
      assert DecimalValue(s) == 10 * (s[0] as int - '0' as int) + (s[1] as int - '0' as int);
    }
  }

  /** The spellings the card form's month field rejects and accepts at its edges. */
  lemma MonthEdges()
    ensures !ValidExpirationMonth("00") && !ValidExpirationMonth("13") && !ValidExpirationMonth("1")
    ensures ValidExpirationMonth("01") && ValidExpirationMonth("09") && ValidExpirationMonth("12")
  {
  }
}
