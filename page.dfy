/** The home page: the program-search lead form that posts to the inquiry
    endpoint, the typing animation of the hero title, the newsletter e-mail
    form, and the target parsing of the animated `CountUp` counters. */
module Page {
  import opened Json
  import SubmitForm

  // ---------------------------------------------------------------------
  // Program search: request and outcome
  // ---------------------------------------------------------------------

  /** The JSON body the search form posts: exactly the three selected values. */
  datatype SearchRequest = SearchRequest(fieldOfStudy: string, destination: string, educationLevel: string)

  /** What `fetch` followed by `response.json()` produced: either a thrown
      error (network failure, a body that is not JSON or not an object), or the
      response's `ok` flag with the body's `status` and `message` properties. */
  datatype FetchResult =
    | Failed(message: Value)
    | Received(ok: bool, status: Value, message: Value)

  /** The status line under the form: a message and its type
      ("", "info", "success" or "error"). */
  datatype FormStatus = FormStatus(message: Value, kind: string)

  const SubmittingStatus: FormStatus := FormStatus(Str("Submitting..."), "info")
  const ClearedStatus: FormStatus := FormStatus(Str(""), "")
  const UnknownErrorMessage: string := "An unknown error occurred."

  /** The success branch: a 2xx response whose body's status is the string
      "success". */
  predicate Succeeded(res: FetchResult) {
    res.Received? && res.ok && res.status == Str("success")
  }

  /** The status the search ends with: the server's message on success;
      otherwise the thrown error's message, which for a received response is
      its message, or the fallback when that is falsy. */
  function StatusAfter(res: FetchResult): (st: FormStatus)
    ensures st.kind == "success" <==> Succeeded(res)
    ensures st.kind == "error" <==> !Succeeded(res)
    ensures Succeeded(res) ==> st.message == res.message
    ensures res.Received? && !Succeeded(res) ==> Truthy(st.message)
    ensures res.Received? && !Succeeded(res) && Truthy(res.message) ==> st.message == res.message
    ensures res.Received? && !Succeeded(res) && !Truthy(res.message) ==> st.message == Str(UnknownErrorMessage)
    ensures res.Failed? ==> st.message == res.message
  {
    match res
    case Failed(m) => FormStatus(m, "error")
    case Received(ok, status, message) =>
      if ok && status == Str("success") then FormStatus(message, "success")
      else FormStatus(Or(message, Str(UnknownErrorMessage)), "error")
  }

  /** The inquiry the endpoint destructures from the posted body. */
  function ToInquiry(req: SearchRequest): SubmitForm.Inquiry
  {
    SubmitForm.Inquiry(Str(req.fieldOfStudy), Str(req.destination), Str(req.educationLevel))
  }

  /** The endpoint's validation accepts the form's request exactly when all
      three selections are non-empty. */
  lemma RequestAcceptedIffNonEmpty(req: SearchRequest)
    ensures SubmitForm.Complete(ToInquiry(req)) <==>
      req.fieldOfStudy != "" && req.destination != "" && req.educationLevel != ""
  {
  }

  /** How an answer of the endpoint reaches the page: `ok` is a 2xx code. */
  function Deliver(r: SubmitForm.Response): FetchResult {
    Received(200 <= r.code < 300, Str(r.body.status), r.body.message)
  }

  /** End to end: for any answer the endpoint gives, the page reports success
      exactly on a 200, and always shows the endpoint's own message. */
  lemma DeliveredStatus(r: SubmitForm.Response)
    requires SubmitForm.WellFormed(r)
    ensures StatusAfter(Deliver(r)).kind == "success" <==> r.code == 200
    ensures StatusAfter(Deliver(r)).message == r.body.message
  {
  }

  // ---------------------------------------------------------------------
  // CountUp: the numeric target of an animated counter
  // ---------------------------------------------------------------------

  /** `end.replace(/,/g, '')`: the target with every comma removed. */
  function StripCommas(s: string): (r: string)
    ensures ',' !in r
    ensures |r| <= |s|
  {
    if s == [] then []
    else (if s[0] == ',' then [] else [s[0]]) + StripCommas(s[1..])
  }

  /** Removing commas works piece by piece, so the characters that remain
      keep their order. */
  lemma {:induction false} StripCommasAppend(a: string, b: string)
    ensures StripCommas(a + b) == StripCommas(a) + StripCommas(b)
    decreases |a|
  {
    if a != [] {
      var head: string := if a[0] == ',' then [] else [a[0]];
      assert (a + b)[0] == a[0] && (a + b)[1..] == a[1..] + b;
      StripCommasAppend(a[1..], b);
      calc {
        StripCommas(a + b);
        head + StripCommas(a[1..] + b);
        head + (StripCommas(a[1..]) + StripCommas(b));
        (head + StripCommas(a[1..])) + StripCommas(b);
        StripCommas(a) + StripCommas(b);
      }
    } else {
      assert a + b == b;
    }
  }

  /** A string without commas is left as it is; in particular stripping
      twice is the same as stripping once. */
  lemma {:induction false} StripCommasNoComma(s: string)
    requires ',' !in s
    ensures StripCommas(s) == s
    decreases |s|
  {
    if s != [] {
      assert s[0] in s;
      StripCommasNoComma(s[1..]);
      assert [s[0]] + s[1..] == s;
    }
  }

  lemma StripCommasIdempotent(s: string)
    ensures StripCommas(StripCommas(s)) == StripCommas(s)
  {
    StripCommasNoComma(StripCommas(s));
  }

  predicate IsDigit(c: char) {
    '0' <= c <= '9'
  }

  predicate AllDigits(s: string) {
    forall i :: 0 <= i < |s| ==> IsDigit(s[i])
  }

  /** The longest prefix of decimal digits: what `parseInt` reads. */
  function LeadingDigits(s: string): (r: string)
    ensures r <= s && AllDigits(r)
    ensures |r| < |s| ==> !IsDigit(s[|r|])
  {
    if s == [] || !IsDigit(s[0]) then [] else [s[0]] + LeadingDigits(s[1..])
  }

  lemma LeadingDigitsOfDigits(s: string)
    requires AllDigits(s)
    ensures LeadingDigits(s) == s
  {
  }

  function DigitValue(c: char): nat
    requires IsDigit(c)
  {
    c as int - '0' as int
  }

  function DigitChar(d: nat): (c: char)
    requires d < 10
    ensures IsDigit(c) && DigitValue(c) == d
  {
    ('0' as int + d) as char
  }

  /** The value of a string of decimal digits, most significant first. */
  function DigitsValue(s: string): nat
    requires AllDigits(s)
  {
    if s == [] then 0 else DigitsValue(s[..|s| - 1]) * 10 + DigitValue(s[|s| - 1])
  }

  /** A counter target: a string such as "1,500" or a number. */
  datatype Target = Text(s: string) | Numeric(x: real)

  /** The result of `parseInt`: a number, or NaN when no digit is read. */
  datatype Parsed = Num(x: real) | NaN

  /** `typeof end === 'string' ? parseInt(end.replace(/,/g, '')) : end`. */
  function EndValue(target: Target): (v: Parsed)
    ensures target.Numeric? ==> v == Num(target.x)
    ensures target.Text? ==> (v.NaN? <==> LeadingDigits(StripCommas(target.s)) == [])
  {
    match target
    case Numeric(x) => Num(x)
    case Text(s) =>
      var d := LeadingDigits(StripCommas(s));
      if d == [] then NaN else Num(DigitsValue(d) as real)
  }

  /** The decimal notation of a natural number. */
  function Decimal(n: nat): (r: string)
    ensures AllDigits(r) && r != []
  {
    if n < 10 then [DigitChar(n)] else Decimal(n / 10) + [DigitChar(n % 10)]
  }

  /** The three digits of a number below 1000, zero-padded. */
  function Pad3(n: nat): (r: string)
    requires n < 1000
    ensures |r| == 3 && AllDigits(r)
  {
    [DigitChar(n / 100), DigitChar(n / 10 % 10), DigitChar(n % 10)]
  }

  /** A number written with a comma between groups of three digits
      ("750,000"). */
  function Grouped(n: nat): (r: string)
    ensures r != []
  {
    if n < 1000 then Decimal(n) else Grouped(n / 1000) + "," + Pad3(n % 1000)
  }

  lemma DigitsHaveNoComma(s: string)
    requires AllDigits(s)
    ensures ',' !in s
  {
  }

  lemma {:induction false} DecimalValue(n: nat)
    ensures DigitsValue(Decimal(n)) == n
  {
    if n >= 10 {
      var s := Decimal(n);
      assert s[..|s| - 1] == Decimal(n / 10);
      DecimalValue(n / 10);
    }
  }

  /** Appending one digit multiplies the value by 10 and adds the digit. */
  lemma AppendDigit(a: string, d: nat)
    requires AllDigits(a) && d < 10
    ensures AllDigits(a + [DigitChar(d)]) && DigitsValue(a + [DigitChar(d)]) == DigitsValue(a) * 10 + d
  {
    var s := a + [DigitChar(d)];
    assert s[..|s| - 1] == a;
  }

  /** A number below 1000 is its three decimal digits. */
  lemma ThreeDigits(n: nat)
    requires n < 1000
    ensures n == (n / 100) * 100 + (n / 10 % 10) * 10 + n % 10
  {
    assert n == (n / 10) * 10 + n % 10;
    assert n / 10 == (n / 100) * 10 + n / 10 % 10;
  }

  lemma Regroup(v: int, x: int, y: int, z: int)
    ensures ((v * 10 + x) * 10 + y) * 10 + z == v * 1000 + (x * 100 + y * 10 + z)
  {
  }

  /** Appending three digits multiplies the value by 1000 and adds them. */
  lemma AppendPad3(a: string, n: nat)
    requires AllDigits(a) && n < 1000
    ensures AllDigits(a + Pad3(n)) && DigitsValue(a + Pad3(n)) == DigitsValue(a) * 1000 + n
  {
    var x, y, z := n / 100, n / 10 % 10, n % 10;
    var s1 := a + [DigitChar(x)];
    var s2 := s1 + [DigitChar(y)];
    var s3 := s2 + [DigitChar(z)];
    AppendDigit(a, x);
    AppendDigit(s1, y);
    AppendDigit(s2, z);
    assert s3 == a + Pad3(n);
    Regroup(DigitsValue(a), x, y, z);
    ThreeDigits(n);
  }

  lemma StripSeparator(g: string, p: string)
    requires ',' !in p
    ensures StripCommas(g + "," + p) == StripCommas(g) + p
  {
    StripCommasAppend(g + ",", p);
    StripCommasAppend(g, ",");
    StripCommasNoComma(p);
    assert StripCommas(",") == [];
    assert StripCommas(g) + [] == StripCommas(g);
  }

  /** Stripping the commas of a grouped number leaves its digits. */
  lemma {:induction false} StripGrouped(n: nat)
    ensures AllDigits(StripCommas(Grouped(n))) && StripCommas(Grouped(n)) != []
    ensures DigitsValue(StripCommas(Grouped(n))) == n
    decreases n
  {
    if n < 1000 {
      DecimalValue(n);
      DigitsHaveNoComma(Decimal(n));
      StripCommasNoComma(Decimal(n));
    } else {
      var q, r := n / 1000, n % 1000;
      StripGrouped(q);
      var a := StripCommas(Grouped(q));
      DigitsHaveNoComma(Pad3(r));
      StripSeparator(Grouped(q), Pad3(r));
      assert StripCommas(Grouped(n)) == a + Pad3(r);
      AppendPad3(a, r);
      assert n == q * 1000 + r;
    }
  }

  /** A counter given its target with thousands separators counts up to
      exactly that number. */
  lemma EndValueOfGrouped(n: nat)
    ensures EndValue(Text(Grouped(n))) == Num(n as real)
  {
    StripGrouped(n);
    LeadingDigitsOfDigits(StripCommas(Grouped(n)));
  }

  /** A counter given its target as plain decimal digits ("750000", "95")
      counts up to exactly that number. */
  lemma EndValueOfDecimal(n: nat)
    ensures EndValue(Text(Decimal(n))) == Num(n as real)
  {
    DecimalValue(n);
    DigitsHaveNoComma(Decimal(n));
    StripCommasNoComma(Decimal(n));
    LeadingDigitsOfDigits(Decimal(n));
  }

  // ---------------------------------------------------------------------
  // The home page's component state
  // ---------------------------------------------------------------------

  const FullTitle: string := "Your Journey to Studying Abroad Starts Here"

  class HomePage {
    // newsletter form
    var email: string
    // program search form
    var fieldOfStudy: string
    var destination: string
    var educationLevel: string
    var formStatus: FormStatus
    var isSubmitting: bool
    // hero title animation: the state cells, the interval's closure counter
    // `i`, and whether the interval is running (otherwise the restart timeout
    // is pending)
    var heroTitle: string
    var isTitleComplete: bool
    var i: int
    var typing: bool

    /** The title shown is the first i - 1 characters of the full title
        (nothing before the first tick); once the interval stops, the whole
        title is shown. */
    ghost predicate Valid()
      reads this
    {
      && 0 <= i <= |FullTitle| + 1
      && heroTitle == FullTitle[..if i == 0 then 0 else i - 1]
      && (!typing ==> i == |FullTitle| + 1)
    }

    constructor ()
      ensures Valid()
      ensures email == "" && fieldOfStudy == "" && destination == "" && educationLevel == ""
      ensures formStatus == ClearedStatus && !isSubmitting
      ensures heroTitle == "" && !isTitleComplete && i == 0 && typing
    {
      email, fieldOfStudy, destination, educationLevel := "", "", "", "";
      formStatus, isSubmitting := ClearedStatus, false;
      heroTitle, isTitleComplete, i, typing := "", false, 0, true;
    }

    /** One tick of the typing interval: while i is at most the title's
        length, show its first i characters and advance; otherwise stop the
        interval and mark the title complete. */
    method TypingTick()
      requires Valid() && typing
      modifies this`heroTitle, this`i, this`typing, this`isTitleComplete
      ensures Valid()
      ensures heroTitle <= FullTitle
      ensures old(i) <= |FullTitle| ==>
        heroTitle == FullTitle[..old(i)] && i == old(i) + 1 && typing
        && isTitleComplete == old(isTitleComplete)
      ensures old(i) > |FullTitle| ==>
        heroTitle == FullTitle && i == old(i) && !typing && isTitleComplete
      ensures old(isTitleComplete) ==> isTitleComplete
    {
      if i <= |FullTitle| {
        heroTitle := FullTitle[..i];
        i := i + 1;
      } else {
        typing := false;
        isTitleComplete := true;
      }
    }

    /** The restart timeout: clear the title and start typing again from 0;
        the title stays marked complete. */
    method RestartTyping()
      requires Valid() && !typing
      modifies this`heroTitle, this`i, this`typing
      ensures Valid()
      ensures i == 0 && heroTitle == "" && typing
    {
      i := 0;
      heroTitle := "";
      typing := true;
    }

    /** The three select boxes' change handlers. */
    method SetFieldOfStudy(v: string)
      modifies this`fieldOfStudy
      ensures fieldOfStudy == v
    {
      fieldOfStudy := v;
    }

    method SetDestination(v: string)
      modifies this`destination
      ensures destination == v
    {
      destination := v;
    }

    method SetEducationLevel(v: string)
      modifies this`educationLevel
      ensures educationLevel == v
    {
      educationLevel := v;
    }

    method SetEmail(v: string)
      modifies this`email
      ensures email == v
    {
      email := v;
    }

    /** The synchronous start of `handleProgramSearch`: mark the form as
        submitting and return the body to post, the three current values. */
    method StartSearch() returns (req: SearchRequest)
      modifies this`isSubmitting, this`formStatus
      ensures isSubmitting && formStatus == SubmittingStatus
      ensures req == SearchRequest(fieldOfStudy, destination, educationLevel)
    {
      isSubmitting := true;
      formStatus := SubmittingStatus;
      req := SearchRequest(fieldOfStudy, destination, educationLevel);
    }

    /** The rest of `handleProgramSearch` once the response has been read:
        on success show the server's message and reset the three fields; on
        any failure show the error and keep the fields; in both cases the form
        is no longer submitting. */
    method FinishSearch(res: FetchResult)
      modifies this`formStatus, this`isSubmitting, this`fieldOfStudy, this`destination, this`educationLevel
      ensures formStatus == StatusAfter(res) && !isSubmitting
      ensures Succeeded(res) ==> fieldOfStudy == "" && destination == "" && educationLevel == ""
      ensures !Succeeded(res) ==>
        fieldOfStudy == old(fieldOfStudy) && destination == old(destination)
        && educationLevel == old(educationLevel)
    {
      match res {
        case Received(ok, status, message) =>
          if ok && status == Str("success") {
            formStatus := FormStatus(message, "success");
            fieldOfStudy := "";
            destination := "";
            educationLevel := "";
          } else {
            // throw new Error(result.message || ...), caught below
            formStatus := FormStatus(Or(message, Str(UnknownErrorMessage)), "error");
          }
        case Failed(message) =>
          formStatus := FormStatus(message, "error");
      }
      // finally
      isSubmitting := false;
    }

    /** The timeout scheduled by the `finally` block: hide the status. */
    method ClearStatus()
      modifies this`formStatus
      ensures formStatus == ClearedStatus
    {
      formStatus := ClearedStatus;
    }

    /** The newsletter form's submit: the address is cleared. */
    method SubmitEmail()
      modifies this`email
      ensures email == ""
    {
      email := "";
    }
  }
}
