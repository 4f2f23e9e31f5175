/** `routes/userAccountDetails.js`: the ordinal date label, the account
    details id generator, and the `POST /account-details` lookup. */
module AccountDetails {
  import opened Options
  import opened Http
  import Query
  import Decimal

  // ---------------------------------------------------------------------
  // The date label

  /** JavaScript's `%`: the remainder takes the sign of the dividend. */
  function JsRemainder(a: int, b: int): (r: int)
    requires b > 0
    ensures a >= 0 ==> r == a % b
    ensures a < 0 ==> -b < r <= 0
  {
    if a >= 0 then a % b else -((-a) % b)
  }

  /** `getOrdinalSuffix(day)`. */
  function OrdinalSuffix(day: int): (r: string)
    ensures r == "st" || r == "nd" || r == "rd" || r == "th"
  {
    if day > 3 && day < 21 then "th"
    else match JsRemainder(day, 10)
      case 1 => "st"
      case 2 => "nd"
      case 3 => "rd"
      case _ => "th"
  }

  /** Days 4 to 20 are "th"; outside that range the last digit of a
      non-negative day decides; a negative day, whose remainder is never
      positive 1, 2 or 3, is always "th". */
  lemma OrdinalSuffixRule(day: int)
    ensures 4 <= day <= 20 ==> OrdinalSuffix(day) == "th"
    ensures (day < 4 || day > 20) && day >= 0 ==>
      OrdinalSuffix(day) == (if day % 10 == 1 then "st" else if day % 10 == 2 then "nd" else if day % 10 == 3 then "rd" else "th")
    ensures day < 0 ==> OrdinalSuffix(day) == "th"
  {
  }

  lemma OrdinalSuffixExamples()
    ensures OrdinalSuffix(1) == "st" && OrdinalSuffix(2) == "nd" && OrdinalSuffix(3) == "rd"
    ensures OrdinalSuffix(11) == "th" && OrdinalSuffix(12) == "th" && OrdinalSuffix(13) == "th"
    ensures OrdinalSuffix(21) == "st" && OrdinalSuffix(22) == "nd" && OrdinalSuffix(23) == "rd"
    ensures OrdinalSuffix(30) == "th" && OrdinalSuffix(31) == "st"
  {
  }

  /** The English rule, stated independently: "th" for numbers ending in
      11, 12 or 13, otherwise by the last digit. */
  function EnglishOrdinalSuffix(n: nat): string {
    if 11 <= n % 100 <= 13 then "th"
    else if n % 10 == 1 then "st"
    else if n % 10 == 2 then "nd"
    else if n % 10 == 3 then "rd"
    else "th"
  }

  /** The source's rule agrees with the English rule for every day of a
      month and beyond, up to 110. */
  lemma OrdinalSuffixIsEnglish(day: int)
    requires 0 <= day <= 110
    ensures OrdinalSuffix(day) == EnglishOrdinalSuffix(day)
  {
    assert day % 100 == (if day >= 100 then day - 100 else day);
  }

  /** The first place where the two rules part: 111 gets "st". */
  lemma OrdinalSuffixPartsAt111()
    ensures OrdinalSuffix(111) == "st" && EnglishOrdinalSuffix(111) == "th"
  {
  }

  /** `formattedDate`: day, suffix, a space, the month, a space, the year. */
  function FormattedDate(day: int, month: string, year: int): string {
    Decimal.IntString(day) + OrdinalSuffix(day) + " " + month + " " + Decimal.IntString(year)
  }

  /** Index of the first space, or `|s|` when there is none. */
  function FirstSpace(s: string): (r: nat)
    ensures r <= |s|
    ensures r < |s| ==> s[r] == ' '
    ensures forall k :: 0 <= k < r ==> s[k] != ' '
  {
    if s == [] || s[0] == ' ' then 0 else 1 + FirstSpace(s[1..])
  }

  /** Index of the last space, or -1 when there is none. */
  function LastSpace(s: string): (r: int)
    ensures -1 <= r < |s|
    ensures r >= 0 ==> s[r] == ' '
    ensures forall k :: r < k < |s| ==> s[k] != ' '
  {
    if s == [] then -1 else if s[|s| - 1] == ' ' then |s| - 1 else LastSpace(s[..|s| - 1])
  }

  /** Reads a date label back into day, month and year. */
  function ParseFormattedDate(s: string): Option<(int, string, int)> {
    var i := FirstSpace(s);
    var j := LastSpace(s);
    if !(2 <= i < j) then None
    else
      var d := Decimal.ParseInt(s[..i - 2]);
      var y := Decimal.ParseInt(s[j + 1..]);
      if d.Some? && y.Some? && s[i - 2..i] == OrdinalSuffix(d.value) then Some((d.value, s[i + 1..j], y.value))
      else None
  }

  /** Three space-free words joined by single spaces split back at the
      first and the last space. */
  lemma SplitAtSpaces(w: string, m: string, y: string)
    requires ' ' !in w && ' ' !in m && ' ' !in y
    ensures var s := w + " " + m + " " + y;
      && FirstSpace(s) == |w| && LastSpace(s) == |w| + 1 + |m|
      && s[..|w|] == w && s[|w| + 1..|w| + 1 + |m|] == m && s[|w| + 1 + |m| + 1..] == y
  {
    var s := w + " " + m + " " + y;
    var j := |w| + 1 + |m|;
    assert s[|w|] == ' ' && forall k :: 0 <= k < |w| ==> s[k] == w[k];
    assert s[j] == ' ' && forall k :: j < k < |s| ==> s[k] == y[k - j - 1];
    assert s[..|w|] == w;
    assert s[|w| + 1..j] == m;
    assert s[j + 1..] == y;
  }

  /** The parse of a label whose first space is at `i` and last at `j`. */
  lemma ParseAtSpaces(s: string, i: nat, j: nat, day: int, year: int)
    requires FirstSpace(s) == i && LastSpace(s) == j && 2 <= i < j
    requires Decimal.ParseInt(s[..i - 2]) == Some(day) && Decimal.ParseInt(s[j + 1..]) == Some(year)
    requires s[i - 2..i] == OrdinalSuffix(day)
    ensures ParseFormattedDate(s) == Some((day, s[i + 1..j], year))
  {
  }

  /** The first word of a label splits into the day and its two-letter suffix. */
  lemma FirstWordParts(s: string, word: string, d: string, suffix: string)
    requires word == d + suffix && |suffix| == 2 && |word| <= |s| && s[..|word|] == word
    ensures s[..|word| - 2] == d && s[|word| - 2..|word|] == suffix
  {
    assert s[..|word| - 2] == word[..|d|];
    assert s[|word| - 2..|word|] == word[|d|..];
  }

  /** A label assembled from a day and a year that parse back, the day's
      own suffix and a space-free month parses back to its parts. */
  lemma LabelRoundTrip(d: string, suffix: string, month: string, y: string, day: int, year: int)
    requires Decimal.ParseInt(d) == Some(day) && Decimal.ParseInt(y) == Some(year)
    requires suffix == OrdinalSuffix(day) && |suffix| == 2
    requires ' ' !in d && ' ' !in suffix && ' ' !in month && ' ' !in y
    ensures ParseFormattedDate(d + suffix + " " + month + " " + y) == Some((day, month, year))
  {
    var word := d + suffix;
    var s := word + " " + month + " " + y;
    SplitAtSpaces(word, month, y);
    FirstWordParts(s, word, d, suffix);
    ParseAtSpaces(s, |word|, |word| + 1 + |month|, day, year);
  }

  /** The label carries day, month and year unambiguously, for any month
      name without spaces. */
  lemma FormattedDateRoundTrip(day: int, month: string, year: int)
    requires ' ' !in month
    ensures ParseFormattedDate(FormattedDate(day, month, year)) == Some((day, month, year))
  {
    Decimal.IntStringRoundTrip(day);
    Decimal.IntStringRoundTrip(year);
    var suffix := OrdinalSuffix(day);
    assert |suffix| == 2 && ' ' !in suffix;
    LabelRoundTrip(Decimal.IntString(day), OrdinalSuffix(day), month, Decimal.IntString(year), day, year);
  }

  // ---------------------------------------------------------------------
  // The id generator

  const Alphabet := "abcdefghijklmnopqrstuvwxyz0123456789"
  const DefaultIdLength := 10

  /** `Math.floor(Math.random() * chars.length)` for a draw `r` of `Math.random()`. */
  function DrawIndex(r: real): (i: int)
    requires 0.0 <= r < 1.0
    ensures 0 <= i < |Alphabet|
  {
    (r * (|Alphabet| as real)).Floor
  }

  /** The alphabet is 36 characters, lower-case letters and digits. */
  lemma AlphabetShape()
    ensures |Alphabet| == 36
    ensures forall k :: 0 <= k < |Alphabet| ==> 'a' <= Alphabet[k] <= 'z' || '0' <= Alphabet[k] <= '9'
  {
  }

  /** `userAccountDetailsId(length)`, given the successive draws of
      `Math.random()`: one character per iteration, picked by its draw. */
  method UserAccountDetailsId(draws: seq<real>, length: int := DefaultIdLength) returns (id: string)
    requires length <= |draws|
    requires forall k :: 0 <= k < |draws| ==> 0.0 <= draws[k] < 1.0
    ensures |id| == (if length > 0 then length else 0)
    ensures forall k :: 0 <= k < |id| ==> id[k] == Alphabet[DrawIndex(draws[k])]
    ensures forall k :: 0 <= k < |id| ==> id[k] in Alphabet
  {
    id := "";
    var i := 0;
    while i < length
      invariant 0 <= i <= (if length > 0 then length else 0)
      invariant |id| == i
      invariant forall k :: 0 <= k < i ==> id[k] == Alphabet[DrawIndex(draws[k])]
    {
      id := id + [Alphabet[DrawIndex(draws[i])]];
      i := i + 1;
    }
  }

  // ---------------------------------------------------------------------
  // POST /account-details

  /** A stored card or bank record; optional schema fields may be absent.
      `paymentMethod` is the schema's `method`, renamed because `method` is a
      Dafny keyword. */
  datatype PaymentRecord = PaymentRecord(
    cardOrBankDetailsId: string,
    userId: string,
    paymentToken: Option<string>,
    paymentMethod: Option<string>,
    provider: Option<string>,
    lastFourDigits: Option<string>,
    cardBrand: Option<string>,
    expiryMonth: Option<string>,
    expiryYear: Option<string>,
    bankName: Option<string>,
    bankAccNumber: Option<string>,
    createdAt: Option<int>)

  /** One entry of the reply's `details`; `Undefined` is what the `map`
      callback returns for a record that is neither card nor bank. */
  datatype DetailView =
    | CardView(paymentMethod: string, cardBrand: Option<string>, expiryMonth: Option<string>, expiryYear: Option<string>,
               createdAt: Option<int>, lastFourDigits: Option<string>)
    | BankView(paymentMethod: string, bankName: Option<string>, bankAccNumber: Option<string>)
    | Undefined

  const NoAccountDetails := "No account details found"

  /** The query `{ cardOrBankDetailsId: { $in: ids }, userId: user }`. */
  function SelectRecords(ids: seq<string>, user: string, records: seq<PaymentRecord>): (sel: seq<PaymentRecord>)
    ensures forall d :: d in sel <==> d in records && d.cardOrBankDetailsId in ids && d.userId == user
  {
    Query.Filter(records, (d: PaymentRecord) => d.cardOrBankDetailsId in ids && d.userId == user)
  }

  /** The projection of one record. */
  function Project(d: PaymentRecord): (v: DetailView)
    ensures d.paymentMethod == Some("card") <==> v.CardView?
    ensures d.paymentMethod == Some("bank") <==> v.BankView?
    ensures v.CardView? ==> v == CardView("card", d.cardBrand, d.expiryMonth, d.expiryYear, d.createdAt, d.lastFourDigits)
    ensures v.BankView? ==> v == BankView("bank", d.bankName, d.lastFourDigits)
  {
    if d.paymentMethod == Some("card") then
      CardView("card", d.cardBrand, d.expiryMonth, d.expiryYear, d.createdAt, d.lastFourDigits)
    else if d.paymentMethod == Some("bank") then
      BankView("bank", d.bankName, d.lastFourDigits)
    else Undefined
  }

  /** The handler: 400 for a malformed payload, 404 when nothing matches,
      otherwise 200 with one projected entry per selected record, in order. */
  function PostAccountDetails(payload: PayloadIds, user: string, records: seq<PaymentRecord>): (r: Reply<seq<DetailView>>)
    ensures !IsValidPayload(payload) <==> r == Failed(400, InvalidPayloadFormat)
    ensures IsValidPayload(payload) ==>
      (r == Failed(404, NoAccountDetails) <==>
         forall d :: d in records ==> !(d.cardOrBankDetailsId in payload.values && d.userId == user))
    ensures r == Failed(400, InvalidPayloadFormat) || r == Failed(404, NoAccountDetails) || r.Done?
    ensures r.Done? ==>
      var sel := SelectRecords(payload.values, user, records);
      && r.status == 200 && |r.body| == |sel| > 0
      && forall k :: 0 <= k < |sel| ==> r.body[k] == Project(sel[k])
  {
    if !IsValidPayload(payload) then Failed(400, InvalidPayloadFormat)
    else
      var sel := SelectRecords(payload.values, user, records);
      if |sel| == 0 then Failed(404, NoAccountDetails)
      else
        assert sel[0] in sel;
        Done(200, seq(|sel|, k requires 0 <= k < |sel| => Project(sel[k])))
  }

  /** A malformed payload is refused before any lookup: the reply does not
      depend on the stored records. */
  lemma InvalidPayloadSkipsLookup(payload: PayloadIds, user: string, a: seq<PaymentRecord>, b: seq<PaymentRecord>)
    requires !IsValidPayload(payload)
    ensures PostAccountDetails(payload, user, a) == PostAccountDetails(payload, user, b)
  {
  }

  /** The details follow the collection order: records appended to the
      collection after a non-empty reply come after it in the reply. */
  lemma AccountDetailsInOrder(ids: seq<string>, user: string, a: seq<PaymentRecord>, b: seq<PaymentRecord>)
    ensures SelectRecords(ids, user, a + b) == SelectRecords(ids, user, a) + SelectRecords(ids, user, b)
  {
    Query.FilterConcat(a, b, (d: PaymentRecord) => d.cardOrBankDetailsId in ids && d.userId == user);
  }
}
