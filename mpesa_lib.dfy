/** The M-Pesa client library: normalising a customer's phone number to the 254XXXXXXXXX
    form, the 14-digit request timestamp, and the STK push and STK query payloads together
    with the error messages a failed request surfaces. */
module MpesaLib {
  import opened Schema
  import opened SaleNumbers

  /** The characters of the JavaScript regular-expression class `[\s\-\+]`: every
      ECMAScript white-space and line-terminator character, the dash and the plus sign. */
  predicate IsSeparator(c: char) {
    || c == '\t' || c == '\n' || c == '\U{000B}' || c == '\U{000C}' || c == '\r' || c == ' '
    || c == '\U{00A0}' || c == '\U{1680}' || ('\U{2000}' <= c <= '\U{200A}')
    || c == '\U{2028}' || c == '\U{2029}' || c == '\U{202F}' || c == '\U{205F}'
    || c == '\U{3000}' || c == '\U{FEFF}'
    || c == '-' || c == '+'
  }

  predicate NoSeparators(s: string) {
    forall i :: 0 <= i < |s| ==> !IsSeparator(s[i])
  }

  /** `phone.replace(/[\s\-\+]/g, "")`: drops every separator, keeping the rest in order. */
  function Clean(s: string): (r: string)
    ensures |r| <= |s|
  {
    if s == [] then []
    else if IsSeparator(s[0]) then Clean(s[1..])
    else [s[0]] + Clean(s[1..])
  }

  lemma {:induction false} CleanRemovesSeparators(s: string)
    ensures NoSeparators(Clean(s))
  {
    if s != [] {
      CleanRemovesSeparators(s[1..]);
    }
  }

  /** A number without separators is left as it is. */
  lemma {:induction false} CleanKeepsClean(s: string)
    requires NoSeparators(s)
    ensures Clean(s) == s
  {
    if s != [] {
      CleanKeepsClean(s[1..]);
      assert s == [s[0]] + s[1..];
    }
  }

  lemma {:induction false} CleanConcat(a: string, b: string)
    ensures Clean(a + b) == Clean(a) + Clean(b)
  {
    if a != [] {
      assert (a + b)[1..] == a[1..] + b;
      CleanConcat(a[1..], b);
    } else {
      assert a + b == b;
    }
  }

  /** Does `s` start with `c`? (`s.startsWith(c)` for a one-character prefix.) */
  predicate StartsWith(s: string, c: char) {
    |s| > 0 && s[0] == c
  }

  /** The prefix rules applied to a number whose separators are gone: a leading 0 becomes
      254, then a number starting with 7 or 1 gets 254 in front. */
  function WithCountryCode(cleaned: string): (r: string)
    ensures !StartsWith(r, '0') && !StartsWith(r, '7') && !StartsWith(r, '1')
    ensures r == [] <==> cleaned == []
    ensures NoSeparators(cleaned) ==> NoSeparators(r)
    ensures StartsWith(cleaned, '0') ==> r == "254" + cleaned[1..]
    ensures StartsWith(cleaned, '7') || StartsWith(cleaned, '1') ==> r == "254" + cleaned
    ensures !StartsWith(cleaned, '0') && !StartsWith(cleaned, '7') && !StartsWith(cleaned, '1') ==> r == cleaned
  {
    var local := if StartsWith(cleaned, '0') then "254" + cleaned[1..] else cleaned;
    if StartsWith(local, '7') || StartsWith(local, '1') then "254" + local else local
  }

  /** Normalises a phone number to the international form 254XXXXXXXXX: separators are
      removed, a leading 0 is replaced by 254, and a number starting with 7 or 1 gets 254
      in front. Anything else is passed through once its separators are gone. */
  function FormatPhoneNumber(phone: string): (r: string)
    ensures NoSeparators(r)
    ensures !StartsWith(r, '0') && !StartsWith(r, '7') && !StartsWith(r, '1')
    ensures r == [] <==> Clean(phone) == []
  {
    CleanRemovesSeparators(phone);
    WithCountryCode(Clean(phone))
  }

  /** A number already in normal form is left alone, so formatting twice changes nothing. */
  lemma FormatIdempotent(phone: string)
    ensures FormatPhoneNumber(FormatPhoneNumber(phone)) == FormatPhoneNumber(phone)
  {
    CleanKeepsClean(FormatPhoneNumber(phone));
  }

  lemma {:induction false} SeparatorsVanish(sep: string)
    requires forall i :: 0 <= i < |sep| ==> IsSeparator(sep[i])
    ensures Clean(sep) == []
  {
    if sep != [] {
      SeparatorsVanish(sep[1..]);
    }
  }

  /** Separators anywhere in the number are ignored. */
  lemma SeparatorsIgnored(a: string, sep: string, b: string)
    requires forall i :: 0 <= i < |sep| ==> IsSeparator(sep[i])
    ensures FormatPhoneNumber(a + sep + b) == FormatPhoneNumber(a + b)
  {
    assert Clean(a + sep + b) == Clean(a + b) by {
      SeparatorsVanish(sep);
      CleanConcat(a + sep, b);
      CleanConcat(a, sep);
      CleanConcat(a, b);
    }
  }

  /** The ways a Kenyan mobile number is written (with a leading 0, bare, and with the
      country code) all get the same 254-prefixed form. Here `subscriber` is the part after
      the country code, starting with 7 or 1. */
  lemma LocalFormsAgree(subscriber: string)
    requires StartsWith(subscriber, '7') || StartsWith(subscriber, '1')
    ensures WithCountryCode("0" + subscriber) == "254" + subscriber
    ensures WithCountryCode(subscriber) == "254" + subscriber
    ensures WithCountryCode("254" + subscriber) == "254" + subscriber
  {
    assert ("0" + subscriber)[1..] == subscriber;
  }

  /** "0712345678" becomes "254712345678". */
  lemma LeadingZeroExample(phone: string)
    requires phone == "0712345678"
    ensures FormatPhoneNumber(phone) == "254712345678"
  {
    assert Clean(phone) == phone by { CleanKeepsClean(phone); }
    assert WithCountryCode(phone) == "254712345678" by {
      LocalFormsAgree("712345678");
      assert phone == "0" + "712345678";
    }
  }

  /** "712345678" becomes "254712345678". */
  lemma BareNumberExample(phone: string)
    requires phone == "712345678"
    ensures FormatPhoneNumber(phone) == "254712345678"
  {
    assert Clean(phone) == phone by { CleanKeepsClean(phone); }
    assert WithCountryCode(phone) == "254712345678" by { LocalFormsAgree(phone); }
  }

  /** A number written with a plus sign and the country code keeps just the digits. */
  lemma InternationalForm(subscriber: string)
    requires StartsWith(subscriber, '7') || StartsWith(subscriber, '1')
    requires NoSeparators(subscriber)
    ensures FormatPhoneNumber("+254" + subscriber) == "254" + subscriber
  {
    var national := "254" + subscriber;
    assert FormatPhoneNumber("+254" + subscriber) == FormatPhoneNumber(national) by {
      SeparatorsIgnored([], "+", national);
      assert "+254" + subscriber == [] + "+" + national;
      assert [] + national == national;
    }
    assert Clean(national) == national by {
      assert NoSeparators(national);
      CleanKeepsClean(national);
    }
    assert WithCountryCode(national) == national by { LocalFormsAgree(subscriber); }
  }

  /** "+254712345678" becomes "254712345678". */
  lemma InternationalExample(phone: string)
    requires phone == "+254712345678"
    ensures FormatPhoneNumber(phone) == "254712345678"
  {
    assert phone == "+254" + "712345678";
    InternationalForm("712345678");
  }

  /** "0712 345-678" becomes "254712345678". */
  lemma SpacedExample(phone: string)
    requires phone == "0712 345-678"
    ensures FormatPhoneNumber(phone) == "254712345678"
  {
    assert FormatPhoneNumber(phone) == FormatPhoneNumber("0712345" + "-" + "678") by {
      SeparatorsIgnored("0712", " ", "345-678");
      assert phone == "0712" + " " + "345-678";
      assert "0712" + "345-678" == "0712345" + "-" + "678";
    }
    assert FormatPhoneNumber("0712345" + "-" + "678") == FormatPhoneNumber("0712345678") by {
      SeparatorsIgnored("0712345", "-", "678");
      assert "0712345" + "678" == "0712345678";
    }
    LeadingZeroExample("0712345678");
  }

  /** `s.replace(/[^0-9]/g, "")`: the ASCII digits of `s`, in order. */
  function DigitsOf(s: string): (r: string)
    ensures |r| <= |s| && AllDigits(r)
  {
    if s == [] then []
    else if IsDigit(s[0]) then [s[0]] + DigitsOf(s[1..])
    else DigitsOf(s[1..])
  }

  lemma {:induction false} DigitsOfDigits(s: string)
    requires AllDigits(s)
    ensures DigitsOf(s) == s
  {
    if s != [] {
      DigitsOfDigits(s[1..]);
      assert s == [s[0]] + s[1..];
    }
  }

  lemma {:induction false} DigitsOfConcat(a: string, b: string)
    ensures DigitsOf(a + b) == DigitsOf(a) + DigitsOf(b)
  {
    if a != [] {
      assert (a + b)[1..] == a[1..] + b;
      DigitsOfConcat(a[1..], b);
    } else {
      assert a + b == b;
    }
  }

  /** The request timestamp: the first fourteen digits of an ISO-8601 instant. */
  function Timestamp(iso: string): (r: string)
    ensures |r| <= 14 && AllDigits(r)
    ensures |r| == 14 <==> |DigitsOf(iso)| >= 14
    ensures |r| <= |DigitsOf(iso)| && r == DigitsOf(iso)[..|r|]
  {
    var d := DigitsOf(iso);
    if |d| <= 14 then d else d[..14]
  }

  /** Removing the non-digit separators between three groups joins the groups' digits. */
  lemma DigitGroups(x: string, sep1: char, y: string, sep2: char, z: string)
    requires !IsDigit(sep1) && !IsDigit(sep2)
    ensures DigitsOf(x + [sep1] + y + [sep2] + z) == DigitsOf(x) + DigitsOf(y) + DigitsOf(z)
  {
    var a := x + [sep1];
    var b := a + y;
    var c := b + [sep2];
    assert DigitsOf(a) == DigitsOf(x) by {
      DigitsOfConcat(x, [sep1]);
      assert DigitsOf([sep1]) == [] by { assert [sep1][1..] == []; }
    }
    assert DigitsOf(b) == DigitsOf(x) + DigitsOf(y) by {
      DigitsOfConcat(a, y);
    }
    assert DigitsOf(c) == DigitsOf(x) + DigitsOf(y) by {
      DigitsOfConcat(b, [sep2]);
      assert DigitsOf([sep2]) == [] by { assert [sep2][1..] == []; }
    }
    DigitsOfConcat(c, z);
  }

  /** For an instant written by `toISOString()` (`YYYY-MM-DDTHH:mm:ss.sssZ`) the timestamp
      is YYYYMMDDHHmmss: the separators and the milliseconds are dropped. */
  lemma IsoTimestamp(year: string, month: string, day: string, hour: string, minute: string,
                     second: string, millis: string)
    requires |year| == 4 && |month| == |day| == |hour| == |minute| == |second| == 2 && |millis| == 3
    requires AllDigits(year) && AllDigits(month) && AllDigits(day) && AllDigits(hour)
    requires AllDigits(minute) && AllDigits(second) && AllDigits(millis)
    ensures Timestamp(year + "-" + month + "-" + day + "T" + hour + ":" + minute + ":" + second
                      + "." + millis + "Z")
         == year + month + day + hour + minute + second
  {
    var date := year + ['-'] + month + ['-'] + day;
    var time := hour + [':'] + minute + [':'] + second;
    var iso := year + "-" + month + "-" + day + "T" + hour + ":" + minute + ":" + second + "." + millis + "Z";
    assert iso == date + ['T'] + time + ['.'] + (millis + ['Z']);
    assert DigitsOf(date) == year + month + day by {
      DigitGroups(year, '-', month, '-', day);
      DigitsOfDigits(year);
      DigitsOfDigits(month);
      DigitsOfDigits(day);
    }
    assert DigitsOf(time) == hour + minute + second by {
      DigitGroups(hour, ':', minute, ':', second);
      DigitsOfDigits(hour);
      DigitsOfDigits(minute);
      DigitsOfDigits(second);
    }
    assert DigitsOf(millis + ['Z']) == millis by {
      DigitsOfConcat(millis, ['Z']);
      DigitsOfDigits(millis);
      assert DigitsOf(['Z']) == [] by { assert ['Z'][1..] == []; }
    }
    DigitGroups(date, 'T', time, '.', millis + ['Z']);
    var wanted := year + month + day + hour + minute + second;
    assert DigitsOf(iso) == wanted + millis;
    assert (wanted + millis)[..14] == wanted;
  }

  /** The environment the library reads; a missing variable is `None`. */
  datatype MpesaConfig = MpesaConfig(
    shortcode: Option<string>,
    passkey: Option<string>,
    callbackUrl: Option<string>)

  /** The sandbox paybill number used when no shortcode is configured. */
  const SandboxShortcode: string := "174379"

  /** The STK push request body. `passwordInput` is the text whose base64 encoding is sent
      as the password. */
  datatype StkPushPayload = StkPushPayload(
    businessShortCode: string,
    passwordInput: string,
    timestamp: string,
    transactionType: string,
    amount: int,
    partyA: string,
    partyB: string,
    phoneNumber: string,
    callBackUrl: Option<string>,
    accountReference: string,
    transactionDesc: string)

  function StkPush(cfg: MpesaConfig, nowIso: string, phone: string, amount: int,
                   accountReference: string, transactionDesc: string): (p: StkPushPayload)
    ensures p.businessShortCode == p.partyB == OrElse(cfg.shortcode, SandboxShortcode) != ""
    ensures p.partyA == p.phoneNumber == FormatPhoneNumber(phone)
    ensures p.passwordInput == p.businessShortCode + OrElse(cfg.passkey, "") + p.timestamp
    ensures p.timestamp == Timestamp(nowIso)
    ensures p.transactionType == "CustomerPayBillOnline"
    ensures p.amount == amount && p.callBackUrl == cfg.callbackUrl
    ensures p.accountReference == accountReference && p.transactionDesc == transactionDesc
  {
    var shortcode := OrElse(cfg.shortcode, SandboxShortcode);
    var timestamp := Timestamp(nowIso);
    var phoneNumber := FormatPhoneNumber(phone);
    StkPushPayload(shortcode, shortcode + OrElse(cfg.passkey, "") + timestamp, timestamp,
      "CustomerPayBillOnline", amount, phoneNumber, shortcode, phoneNumber, cfg.callbackUrl,
      accountReference, transactionDesc)
  }

  /** The STK query request body. */
  datatype StkQueryPayload = StkQueryPayload(
    businessShortCode: string,
    passwordInput: string,
    timestamp: string,
    checkoutRequestId: string)

  function StkQuery(cfg: MpesaConfig, nowIso: string, checkoutRequestId: string): (p: StkQueryPayload)
    ensures p.businessShortCode == OrElse(cfg.shortcode, SandboxShortcode) != ""
    ensures p.passwordInput == p.businessShortCode + OrElse(cfg.passkey, "") + p.timestamp
    ensures p.timestamp == Timestamp(nowIso) && p.checkoutRequestId == checkoutRequestId
  {
    var shortcode := OrElse(cfg.shortcode, SandboxShortcode);
    var timestamp := Timestamp(nowIso);
    StkQueryPayload(shortcode, shortcode + OrElse(cfg.passkey, "") + timestamp, timestamp,
      checkoutRequestId)
  }

  /** A push and its query sent at the same instant carry the same credentials. */
  lemma QuerySharesCredentials(cfg: MpesaConfig, nowIso: string, phone: string, amount: int,
                               reference: string, desc: string, checkoutRequestId: string)
    ensures var push := StkPush(cfg, nowIso, phone, amount, reference, desc);
      var query := StkQuery(cfg, nowIso, checkoutRequestId);
      push.businessShortCode == query.businessShortCode
      && push.passwordInput == query.passwordInput && push.timestamp == query.timestamp
  {
  }

  /** What the gateway answers to a request that reached it: the parsed response body, or a
      failure carrying the `errorMessage` of the error response when there is one. */
  datatype GatewayReply<T> = Answered(data: T) | Refused(errorMessage: Option<string>)

  /** The fields of an accepted STK push response the routes read. */
  datatype StkPushResponse = StkPushResponse(checkoutRequestId: Option<string>, customerMessage: Option<string>)

  const TokenFailure: string := "Failed to get M-Pesa token"
  const PushFailure: string := "Failed to initiate M-Pesa payment"
  const QueryFailure: string := "Failed to query M-Pesa payment"

  /** Starts an STK push. `tokenIssued` says whether the OAuth token request succeeded and
      `send` is the gateway's answer to a payload. */
  function InitiatePayment(cfg: MpesaConfig, tokenIssued: bool, nowIso: string, phone: string,
                           amount: int, accountReference: string, transactionDesc: string,
                           send: StkPushPayload -> GatewayReply<StkPushResponse>): (r: Result<StkPushResponse, string>)
    ensures !tokenIssued ==> r == Err(TokenFailure)
    ensures tokenIssued ==>
      var reply := send(StkPush(cfg, nowIso, phone, amount, accountReference, transactionDesc));
      && (reply.Answered? ==> r == Ok(reply.data))
      && (reply.Refused? ==> r == Err(OrElse(reply.errorMessage, PushFailure)))
    ensures r.Err? ==> r.error != ""
  {
    if !tokenIssued then Err(TokenFailure)
    else match send(StkPush(cfg, nowIso, phone, amount, accountReference, transactionDesc))
      case Answered(data) => Ok(data)
      case Refused(message) => Err(OrElse(message, PushFailure))
  }

  /** Queries the status of an STK push. Any failure gives one fixed message. */
  function QueryPayment<T>(cfg: MpesaConfig, tokenIssued: bool, nowIso: string, checkoutRequestId: string,
                           send: StkQueryPayload -> GatewayReply<T>): (r: Result<T, string>)
    ensures r.Err? ==> r.error == (if tokenIssued then QueryFailure else TokenFailure)
    ensures r.Ok? <==> tokenIssued && send(StkQuery(cfg, nowIso, checkoutRequestId)).Answered?
  {
    if !tokenIssued then Err(TokenFailure)
    else match send(StkQuery(cfg, nowIso, checkoutRequestId))
      case Answered(data) => Ok(data)
      case Refused(_) => Err(QueryFailure)
  }
}
