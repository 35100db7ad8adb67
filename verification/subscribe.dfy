/**
 * The subscription relay, `POST /api/subscribe`.
 *
 * The endpoint takes a JSON body `{email, phone}`, normalises the phone number
 * to `+` followed by its digits, with a `1` inserted before ten digits that do
 * not start with `1`, and
 * forwards both identifiers to the marketing contacts API. Every POST whose
 * body carries both fields is reported as a success, whatever the contacts
 * API does: a marketing outage must never block the signup flow. The contacts
 * API's behaviour is an outcome supplied by the caller.
 */
module Subscribe {
  import opened Options

  const NotAllowed := "Method not allowed"
  const FieldsRequired := "Email and phone are required"
  const SubscribedMessage := "Subscribed successfully"
  const Tags: seq<string> := ["early-access", "gate-signup"]

  // ---------------------------------------------------------------------------
  // Phone normalisation
  // ---------------------------------------------------------------------------

  /** The characters matched by `\d` (the pattern is not in Unicode mode). */
  predicate IsDigit(c: char) {
    '0' <= c <= '9'
  }

  predicate AllDigits(s: string) {
    forall i :: 0 <= i < |s| ==> IsDigit(s[i])
  }

  /** `phone.replace(/\D/g, '')`: the input with every non-digit removed. */
  function StripNonDigits(s: string): (d: string)
    ensures AllDigits(d)
    ensures |d| <= |s|
  {
    if s == [] then []
    else (if IsDigit(s[0]) then [s[0]] else []) + StripNonDigits(s[1..])
  }

  /** Stripping distributes over concatenation: the digits keep their order. */
  lemma {:induction false} StripAppend(a: string, b: string)
    ensures StripNonDigits(a + b) == StripNonDigits(a) + StripNonDigits(b)
  {
    if a == [] {
      assert a + b == b;
    } else {
      assert (a + b)[1..] == a[1..] + b;
      StripAppend(a[1..], b);
    }
  }

  /** A string of digits is left exactly as it is. */
  lemma {:induction false} StripKeepsDigits(s: string)
    requires AllDigits(s)
    ensures StripNonDigits(s) == s
  {
    if s != [] {
      StripKeepsDigits(s[1..]);
    }
  }

  /** Stripping yields nothing exactly when the input holds no digit at all. */
  lemma {:induction false} StripEmptyIff(s: string)
    ensures StripNonDigits(s) == [] <==> forall i :: 0 <= i < |s| ==> !IsDigit(s[i])
  {
    if s != [] {
      StripEmptyIff(s[1..]);
      assert forall i :: 1 <= i < |s| ==> s[i] == s[1..][i - 1];
    }
  }

  /**
   * The country-code rule: the stripped digits get a leading `1` when there
   * are exactly ten of them and they do not already start with `1`.
   */
  predicate NeedsCountryCode(digits: string) {
    !(|digits| > 0 && digits[0] == '1') && |digits| == 10
  }

  /**
   * The normalised phone: `+`, then possibly an inserted `1`, then exactly the
   * stripped digits of the input.
   */
  function NormalizePhone(phone: string): (r: string)
    ensures |r| >= 1 && r[0] == '+' && AllDigits(r[1..])
    ensures var d := StripNonDigits(phone);
      && (|r| == |d| + 1 || |r| == |d| + 2)
      && r[|r| - |d|..] == d
      && (|r| == |d| + 2 <==> |d| == 10 && d[0] != '1')
      && (|r| == |d| + 2 ==> r[1] == '1')
  {
    var digits := StripNonDigits(phone);
    var withCode := if NeedsCountryCode(digits) then "1" + digits else digits;
    "+" + withCode
  }

  /** Ten digits without a leading `1` become `+1` followed by those ten digits. */
  lemma TenDigitsGetCountryCode(phone: string)
    requires |StripNonDigits(phone)| == 10 && StripNonDigits(phone)[0] != '1'
    ensures NormalizePhone(phone) == "+1" + StripNonDigits(phone)
  {
  }

  /** Stripping a normalised phone recovers everything after the `+`. */
  lemma StripNormalized(phone: string)
    ensures StripNonDigits(NormalizePhone(phone)) == NormalizePhone(phone)[1..]
  {
    var r := NormalizePhone(phone);
    assert r == [r[0]] + r[1..];
    StripAppend([r[0]], r[1..]);
    StripKeepsDigits(r[1..]);
  }

  /** Normalising an already normalised phone changes nothing. */
  lemma NormalizeIdempotent(phone: string)
    ensures NormalizePhone(NormalizePhone(phone)) == NormalizePhone(phone)
  {
    var r := NormalizePhone(phone);
    StripNormalized(phone);
    var d := StripNonDigits(phone);
    if NeedsCountryCode(d) {
      assert |r[1..]| == 11;
    } else {
      assert r[1..] == d;
    }
    assert !NeedsCountryCode(r[1..]);
  }

  // ---------------------------------------------------------------------------
  // The request handler
  // ---------------------------------------------------------------------------

  /** A JSON response: its status and whichever body fields it carries. */
  datatype Reply = Reply(status: int, success: Option<bool>, error: Option<string>, message: Option<string>)

  /** A body field after destructuring the parsed JSON body. */
  datatype Field = Absent | Text(text: string) | Other(truthy: bool)

  /** JavaScript truthiness of a body field. */
  predicate Present(f: Field) {
    match f
    case Absent => false
    case Text(t) => t != ""
    case Other(b) => b
  }

  /**
   * The request body: either `request.json()` rejects (or yields `null`, which
   * the destructuring then rejects), or it yields an object with two fields.
   */
  datatype Body = Unparsable | Json(email: Field, phone: Field)

  /** How the call to the contacts API ended. */
  datatype Downstream = Accepted | Refused | Threw

  /** What is sent to the contacts API: both identifiers and the fixed tags. */
  datatype Contact = Contact(email: Field, phone: string, tags: seq<string>)

  /** The handler's response, and the contact it sent out, if it made the call. */
  datatype Outcome = Outcome(reply: Reply, sent: Option<Contact>)

  function Success(): (r: Reply)
    ensures r.status == 200 && r.success == Some(true) && r.error == None
  {
    Reply(200, Some(true), None, Some(SubscribedMessage))
  }

  /** Every POST with both fields is answered with `success: true`. */
  predicate WellFormedPost(httpMethod: string, body: Body) {
    httpMethod == "POST" && (body.Json? ==> Present(body.email) && Present(body.phone))
  }

  /**
   * `action`: method check, body validation, key check, normalisation and
   * forwarding, and the policy that swallows every downstream failure.
   */
  function Action(httpMethod: string, body: Body, apiKey: Option<string>, downstream: Downstream): (o: Outcome)
    ensures httpMethod != "POST" ==> o == Outcome(Reply(405, Some(false), Some(NotAllowed), None), None)
    ensures o.reply.status == 400 <==> httpMethod == "POST" && !WellFormedPost(httpMethod, body)
    ensures o.reply.status == 400 ==> o.reply == Reply(400, Some(false), Some(FieldsRequired), None) && o.sent == None
    ensures WellFormedPost(httpMethod, body) ==> o.reply == Success()
    ensures o.sent.Some? <==>
      WellFormedPost(httpMethod, body) && body.Json? && body.phone.Text? && Truthy(apiKey)
    ensures o.sent.Some? ==> o.sent.value == Contact(body.email, NormalizePhone(body.phone.text), Tags)
  {
    if httpMethod != "POST" then
      Outcome(Reply(405, Some(false), Some(NotAllowed), None), None)
    else
      match body
      case Unparsable =>
        // the parse error is caught and answered like a success
        Outcome(Success(), None)
      case Json(email, phone) =>
        if !Present(email) || !Present(phone) then
          Outcome(Reply(400, Some(false), Some(FieldsRequired), None), None)
        else if !Truthy(apiKey) then
          Outcome(Success(), None)
        else
          match phone
          case Text(t) =>
            var contact := Contact(email, NormalizePhone(t), Tags);
            (match downstream
             case Accepted => Outcome(Success(), Some(contact))
             case Refused => Outcome(Success(), Some(contact))
             case Threw => Outcome(Success(), Some(contact)))
          case _ =>
            // `phone.replace` throws on a value that is not a string; the error is caught
            Outcome(Success(), None)
  }

  /** The contacts API's answer never reaches the caller. */
  lemma DownstreamIgnored(httpMethod: string, body: Body, apiKey: Option<string>, d1: Downstream, d2: Downstream)
    ensures Action(httpMethod, body, apiKey, d1) == Action(httpMethod, body, apiKey, d2)
  {
  }

  /** `loader`: a GET on the endpoint is refused. */
  function Loader(): (r: Reply)
    ensures r.status == 405 && r.success == None && r.error == Some(NotAllowed)
  {
    Reply(405, None, Some(NotAllowed), None)
  }

  // ---------------------------------------------------------------------------
  // Worked cases
  // ---------------------------------------------------------------------------

  /**
   * Without a contacts key a valid signup is acknowledged and nothing is sent;
   * a body without an email is refused with a client error.
   */
  lemma RelayExamples(downstream: Downstream)
    ensures Action("POST", Json(Text("a@b.com"), Text("5551234567")), None, downstream) == Outcome(Success(), None)
    ensures Action("POST", Json(Absent, Text("5551234567")), Some("key"), downstream)
      == Outcome(Reply(400, Some(false), Some(FieldsRequired), None), None)
  {
  }
}
