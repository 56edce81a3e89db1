/**
 The wallet's QR codes: the printer (app/my-qr.tsx), the parser
 (lib/qr-parser.ts) and the validation in front of a transfer
 (lib/qr-validation.ts). `parseFloat(x) > 0` is a parameter `positive` that
 both sides share.
 */
module QrCode {
  import opened Basics

  /** `parseFloat(x) > 0` */
  predicate IsPositive(positive: string -> bool, x: string) {
    positive(x)
  }

  const MOCK_PHONE: string := "0812345678"

  predicate Digit(c: char) {
    '0' <= c <= '9'
  }

  /** `s.replace(/\D/g, '')` */
  function Digits(s: string): string {
    if s == "" then "" else (if Digit(s[0]) then [s[0]] else "") + Digits(s[1..])
  }

  function ToLocalPhone(phone: string): string {
    var digits := Digits(phone);
    if "66" <= digits && |digits| == 11 then "0" + digits[2..]
    else if "0" <= digits && |digits| == 10 then digits
    else MOCK_PHONE
  }

  function PhoneOf(profilePhone: Option<string>): string {
    if profilePhone.Some? && profilePhone.value != "" then ToLocalPhone(profilePhone.value) else MOCK_PHONE
  }

  /** The QR text for a profile and an entered amount. */
  function Print(profilePhone: Option<string>, amount: string, positive: string -> bool): string {
    if amount != "" && IsPositive(positive, amount) then "JLEDGER:" + PhoneOf(profilePhone) + ":" + amount
    else "JLEDGER:" + PhoneOf(profilePhone)
  }

  // ---- Parsing ----

  /** `s.split(c)` */
  function Split(s: string, c: char): (parts: seq<string>)
    ensures |parts| >= 1
  {
    if s == "" then [""]
    else if s[0] == c then [""] + Split(s[1..], c)
    else
      var rest := Split(s[1..], c);
      [[s[0]] + rest[0]] + rest[1..]
  }

  datatype Parsed =
    | Internal(recipient: string, amount: Option<string>)
    | MerchantStatic(merchantId: string)
    | MerchantPayment(paymentId: string)
    | Unsupported

  /** `parts[i] || undefined` */
  function Part(parts: seq<string>, i: nat): Option<string> {
    if i < |parts| && parts[i] != "" then Some(parts[i]) else None
  }

  function FindId(params: seq<string>): Option<string> {
    if params == [] then None
    else if "id=" <= params[0] then Part(Split(params[0], '='), 1)
    else FindId(params[1..])
  }

  /** The `id` parameter of a jledger:// URL. */
  function IdParam(data: string): Option<string> {
    var urlParts := Split(data, '?');
    if |urlParts| < 2 then None else FindId(Split(urlParts[1], '&'))
  }

  function Parse(data: string): Parsed {
    if "JLEDGER:" <= data then
      var parts := Split(data, ':');
      Internal(if 1 < |parts| then parts[1] else "", Part(parts, 2))
    else if "jledger://merchant" <= data && IdParam(data).Some? then MerchantStatic(IdParam(data).value)
    else if "jledger://pay" <= data && IdParam(data).Some? then MerchantPayment(IdParam(data).value)
    else Unsupported
  }

  // ---- Validation ----

  datatype Validation =
    | Transfer(to: string, amount: string)
    | Merchant(paymentId: string)
    | MerchantQr(merchantId: string)
    | Invalid(code: string)

  const SPACES: set<char> := {' ', '\t', '\n', '\r', '\U{000B}', '\U{000C}', '\U{00A0}', '\U{FEFF}'}

  /** `s.trim() === ''` */
  predicate Blank(s: string) {
    forall i :: 0 <= i < |s| ==> s[i] in SPACES
  }

  function Normalise(recipient: string): string {
    var digits := Digits(recipient);
    if |digits| == 9 then "0" + digits else digits
  }

  function Validate(raw: string, positive: string -> bool): Validation {
    match Parse(raw)
    case Unsupported => Invalid("INVALID_QR")
    case MerchantPayment(id) => Merchant(id)
    case MerchantStatic(id) => MerchantQr(id)
    case Internal(recipient, amount) =>
      if Blank(recipient) then Invalid("INVALID_RECIPIENT")
      else if |Normalise(recipient)| != 10 then Invalid("INVALID_RECIPIENT")
      else if !IsPositive(positive, if amount.Some? then amount.value else "1") then Invalid("INVALID_QR")
      else Transfer(Normalise(recipient), if amount.Some? then amount.value else "")
  }

  // ---- Local phone numbers ----

  /** Ten digits, the first of them zero. */
  predicate Local(phone: string) {
    |phone| == 10 && phone[0] == '0' && forall i :: 0 <= i < |phone| ==> Digit(phone[i])
  }

  lemma {:induction false} DigitsAreDigits(s: string)
    ensures forall i :: 0 <= i < |Digits(s)| ==> Digit(Digits(s)[i])
  {
    if s != "" {
      DigitsAreDigits(s[1..]);
    }
  }

  lemma {:induction false} DigitsKeep(s: string)
    requires forall i :: 0 <= i < |s| ==> Digit(s[i])
    ensures Digits(s) == s
  {
    if s != "" {
      DigitsKeep(s[1..]);
    }
  }

  lemma ToLocalPhoneIsLocal(phone: string)
    ensures Local(ToLocalPhone(phone))
  {
    DigitsAreDigits(phone);
  }

  /** Every phone string becomes a ten-digit local number, and a local number stays as it is. */
  lemma ToLocalPhoneIdempotent(phone: string)
    ensures Local(ToLocalPhone(phone)) && ToLocalPhone(ToLocalPhone(phone)) == ToLocalPhone(phone)
  {
    ToLocalPhoneIsLocal(phone);
    DigitsKeep(ToLocalPhone(phone));
    assert "0" <= ToLocalPhone(phone);
  }

  // ---- The round trip ----

  function DigitIfAny(c: char): string {
    if Digit(c) then [c] else ""
  }

  lemma DigitsCons(c: char, s: string)
    ensures Digits([c] + s) == DigitIfAny(c) + Digits(s)
  {
    assert ([c] + s)[1..] == s;
  }

  lemma Regroup(x: string, y: string, z: string)
    ensures x + y + z == x + (y + z)
  {
  }

  lemma {:induction false} DigitsConcat(s: string, t: string)
    ensures Digits(s + t) == Digits(s) + Digits(t)
  {
    if s == "" {
      assert s + t == t;
    } else {
      DigitsConcat(s[1..], t);
      assert s == [s[0]] + s[1..];
      Regroup([s[0]], s[1..], t);
      DigitsCons(s[0], s[1..]);
      DigitsCons(s[0], s[1..] + t);
      Regroup(DigitIfAny(s[0]), Digits(s[1..]), Digits(t));
    }
  }

  /** What is inserted between digits, if it is not a digit, does not matter. */
  lemma DigitsIgnoreOthers(s: string, c: char, t: string)
    requires !Digit(c)
    ensures Digits(s + [c] + t) == Digits(s + t)
  {
    DigitsConcat(s + [c], t);
    DigitsConcat(s, [c]);
    DigitsConcat(s, t);
    assert [c][1..] == "";
  }

  /** Whatever comes to the ten local digits, or to the international ones, is that local number. */
  lemma ToLocalPhoneReads(phone: string, written: string)
    requires Local(phone) && (Digits(written) == phone || Digits(written) == "66" + phone[1..])
    ensures ToLocalPhone(written) == phone && PhoneOf(Some(written)) == phone
  {
    if Digits(written) == "66" + phone[1..] {
      assert Digits(written)[2..] == phone[1..];
      assert "0" + phone[1..] == phone;
    }
  }

  /** A local number is read as itself, and so is its international form. */
  lemma ToLocalPhoneForms(phone: string)
    requires Local(phone)
    ensures ToLocalPhone(phone) == phone && ToLocalPhone("+66" + phone[1..]) == phone
  {
    DigitsKeep(phone);
    ToLocalPhoneReads(phone, phone);
    var intl := "66" + phone[1..];
    DigitsKeep(intl);
    DigitsIgnoreOthers("", '+', intl);
    assert "+66" + phone[1..] == "" + ['+'] + intl && "" + intl == intl;
    ToLocalPhoneReads(phone, "+66" + phone[1..]);
  }

  /** Anything else, or no phone at all, prints the placeholder number. */
  lemma ToLocalPhoneElse(written: string)
    requires !Local(Digits(written))
    requires !(|Digits(written)| == 11 && Digits(written)[0] == '6' && Digits(written)[1] == '6')
    ensures PhoneOf(Some(written)) == "0812345678" && PhoneOf(None) == "0812345678"
  {
    DigitsAreDigits(written);
  }

  lemma {:induction false} SplitWhole(s: string, c: char)
    requires c !in s
    ensures Split(s, c) == [s]
  {
    if s != "" {
      SplitWhole(s[1..], c);
      assert [s[0]] + s[1..] == s;
    }
  }

  lemma {:induction false} SplitFirst(s: string, c: char, rest: string)
    requires c !in s
    ensures Split(s + [c] + rest, c) == [s] + Split(rest, c)
  {
    var whole := s + [c] + rest;
    if s == "" {
      assert whole[0] == c && whole[1..] == rest;
    } else {
      SplitFirst(s[1..], c, rest);
      assert whole[0] == s[0] && whole[1..] == s[1..] + [c] + rest;
      assert [s[0]] + s[1..] == s;
    }
  }

  /** What comes before the first colon, if there is one, is all the parser takes. */
  lemma {:induction false} SplitHead(s: string, c: char)
    ensures c in s ==> |Split(s, c)[0]| < |s|
    ensures c !in s ==> Split(s, c)[0] == s
  {
    if s != "" && s[0] != c {
      SplitHead(s[1..], c);
      assert [s[0]] + s[1..] == s;
    }
  }

  lemma ParsePrinted(phone: string, amount: Option<string>)
    requires Local(phone)
    ensures var data := "JLEDGER:" + phone + if amount.Some? then ":" + amount.value else "";
            && Parse(data).Internal? && Parse(data).recipient == phone
            && Parse(data).amount == if amount.Some? then Part(Split(amount.value, ':'), 0) else None
  {
    var rest := phone + if amount.Some? then ":" + amount.value else "";
    var data := "JLEDGER:" + phone + if amount.Some? then ":" + amount.value else "";
    assert ':' !in phone;
    assert data == "JLEDGER" + [':'] + rest;
    SplitFirst("JLEDGER", ':', rest);
    assert "JLEDGER:" <= data;
    if amount.Some? {
      SplitFirst(phone, ':', amount.value);
      assert rest == phone + [':'] + amount.value;
    } else {
      SplitWhole(phone, ':');
      assert rest == phone;
    }
  }

  lemma LocalIsNormal(phone: string)
    requires Local(phone)
    ensures Normalise(phone) == phone && !Blank(phone)
  {
    DigitsKeep(phone);
    assert phone[0] == '0';
    assert '0' !in SPACES;
  }

  lemma ValidateInternal(raw: string, phone: string, amount: Option<string>, positive: string -> bool)
    requires Parse(raw) == Internal(phone, amount) && Local(phone)
    ensures Validate(raw, positive) ==
            if IsPositive(positive, if amount.Some? then amount.value else "1")
            then Transfer(phone, if amount.Some? then amount.value else "") else Invalid("INVALID_QR")
  {
    LocalIsNormal(phone);
  }

  lemma PhoneOfIsLocal(profilePhone: Option<string>)
    ensures Local(PhoneOf(profilePhone))
  {
    if profilePhone.Some? && profilePhone.value != "" {
      ToLocalPhoneIsLocal(profilePhone.value);
    }
  }

  lemma RoundTripWithAmount(phone: string, amount: string, positive: string -> bool)
    requires Local(phone) && amount != "" && IsPositive(positive, amount)
    ensures Validate("JLEDGER:" + phone + ":" + amount, positive) == Transfer(phone, amount) <==> ':' !in amount
  {
    var raw := "JLEDGER:" + phone + ":" + amount;
    ParsePrinted(phone, Some(amount));
    assert raw == "JLEDGER:" + phone + (":" + amount);
    SplitHead(amount, ':');
    ValidateInternal(raw, phone, Part(Split(amount, ':'), 0), positive);
  }

  lemma RoundTripWithoutAmount(phone: string, positive: string -> bool)
    requires Local(phone) && IsPositive(positive, "1")
    ensures Validate("JLEDGER:" + phone, positive) == Transfer(phone, "")
  {
    var raw := "JLEDGER:" + phone;
    ParsePrinted(phone, None);
    assert raw == "JLEDGER:" + phone + "";
    ValidateInternal(raw, phone, None, positive);
  }

  /** The amount a printed code carries: the one entered, if it is positive. */
  function Effective(amount: string, positive: string -> bool): string {
    if amount != "" && IsPositive(positive, amount) then amount else ""
  }

  /**
   For every profile and every amount: validating the printed code returns the
   ten-digit local phone and the amount entered, or no amount when it is not
   positive, exactly when a positive amount contains no colon.
   */
  lemma RoundTrip(profilePhone: Option<string>, amount: string, positive: string -> bool)
    requires IsPositive(positive, "1")
    ensures Local(PhoneOf(profilePhone))
    ensures (Validate(Print(profilePhone, amount, positive), positive)
             == Transfer(PhoneOf(profilePhone), Effective(amount, positive)))
            <==> ':' !in Effective(amount, positive)
  {
    PhoneOfIsLocal(profilePhone);
    if amount != "" && IsPositive(positive, amount) {
      RoundTripWithAmount(PhoneOf(profilePhone), amount, positive);
    } else {
      RoundTripWithoutAmount(PhoneOf(profilePhone), positive);
    }
  }

  // ---- Merchant codes ----

  /** The query of a jledger:// address whose id parameter comes first. */
  lemma IdParamFirst(address: string, id: string, more: string)
    requires '?' !in address && '?' !in id && '&' !in id && '=' !in id && '?' !in more
    ensures IdParam(address + "?id=" + id) == (if id == "" then None else Some(id))
    ensures IdParam(address + "?id=" + id + "&" + more) == (if id == "" then None else Some(id))
  {
    var query := "id=" + id;
    assert address + "?id=" + id == address + ['?'] + query;
    SplitFirst(address, '?', query);
    SplitWhole(query, '?');
    SplitWhole(query, '&');
    FindIdFirst(id, []);
    var longer := query + ['&'] + more;
    assert address + "?id=" + id + "&" + more == address + ['?'] + longer;
    SplitFirst(address, '?', longer);
    SplitWhole(longer, '?');
    SplitFirst(query, '&', more);
    FindIdFirst(id, Split(more, '&'));
  }

  lemma FindIdFirst(id: string, others: seq<string>)
    requires '=' !in id
    ensures FindId(["id=" + id] + others) == (if id == "" then None else Some(id))
  {
    assert "id=" + id == "id" + ['='] + id;
    SplitFirst("id", '=', id);
    SplitWhole(id, '=');
    assert Split("id=" + id, '=') == ["id", id];
  }

  /** Other parameters before the id do not matter. */
  lemma IdParamLater(address: string, other: string, query: string)
    requires '?' !in address && '?' !in other && '&' !in other && !("id=" <= other) && '?' !in query
    ensures IdParam(address + "?" + other + "&" + query) == IdParam(address + "?" + query)
  {
    var longer := other + ['&'] + query;
    assert address + "?" + other + "&" + query == address + ['?'] + longer;
    assert address + "?" + query == address + ['?'] + query;
    SplitFirst(address, '?', longer);
    SplitFirst(address, '?', query);
    SplitWhole(longer, '?');
    SplitWhole(query, '?');
    SplitFirst(other, '&', query);
    assert ([other] + Split(query, '&'))[1..] == Split(query, '&');
  }

  /** A merchant's own code is accepted with its id, and is invalid without one. */
  lemma MerchantCode(id: string, positive: string -> bool)
    requires '?' !in id && '&' !in id && '=' !in id
    ensures Validate("jledger://merchant?id=" + id, positive)
            == if id == "" then Invalid("INVALID_QR") else MerchantQr(id)
  {
    IdParamFirst("jledger://merchant", id, "");
    var code := "jledger://merchant?id=" + id;
    assert code == "jledger://merchant" + "?id=" + id;
    assert code[0] == 'j' && code[10] == 'm';
  }

  /** A payment request is accepted with its id, and is invalid without one. */
  lemma PaymentCode(id: string, positive: string -> bool)
    requires '?' !in id && '&' !in id && '=' !in id
    ensures Validate("jledger://pay?id=" + id, positive)
            == if id == "" then Invalid("INVALID_QR") else Merchant(id)
  {
    IdParamFirst("jledger://pay", id, "");
    var code := "jledger://pay?id=" + id;
    assert code == "jledger://pay" + "?id=" + id;
    assert code[0] == 'j' && code[10] == 'p';
  }

  /** A recipient must come to ten digits, or to nine that get a zero in front. */
  lemma RecipientDigits(raw: string, recipient: string, amount: Option<string>, positive: string -> bool)
    requires Parse(raw) == Internal(recipient, amount)
    ensures |Digits(recipient)| !in {9, 10} ==> Validate(raw, positive) == Invalid("INVALID_RECIPIENT")
    ensures positive(if amount.Some? then amount.value else "1") && |Digits(recipient)| in {9, 10} ==>
              Validate(raw, positive)
              == Transfer(if |Digits(recipient)| == 9 then "0" + Digits(recipient) else Digits(recipient),
                          if amount.Some? then amount.value else "")
    ensures !positive(if amount.Some? then amount.value else "1") ==> Validate(raw, positive).Invalid?
  {
    if Blank(recipient) {
      BlankHasNoDigits(recipient);
    }
  }

  lemma {:induction false} BlankHasNoDigits(s: string)
    requires Blank(s)
    ensures Digits(s) == ""
  {
    if s != "" {
      assert s[0] in SPACES;
      BlankHasNoDigits(s[1..]);
    }
  }
}
