# Study-abroad consultancy site: a Dafny model of its logic

The site is a Next.js marketing front end with one API endpoint. This project
models the parts that hold logic:

- **The inquiry endpoint** (`POST /api/submit-form`, module `SubmitForm`). It
  checks that `fieldOfStudy`, `destination` and `educationLevel` are
  JavaScript-truthy and answers 400 if one is not. Otherwise it opens a MySQL
  connection, inserts one row into `inquiries` and closes the connection.
  Any failure after the check lands in one catch block. That block calls
  `end()` if a connection was opened (a second call when the failure was the
  close itself) and answers 500.
  The driver is a `Database` object with the table's rows, counters for
  created and open connections, and the number of `end()` calls. A `Faults`
  record says which driver call throws. `Post` is an imperative method that
  mirrors the handler's `connection` variable and its try/catch.
- **JavaScript values** (module `Json`). A JSON value datatype, JavaScript
  truthiness and the `a || b` operator. The endpoint's check and both
  message fallbacks use these.
- **The three-step application wizard** (`FeedbackForm`). A class holds
  `step` (bounded to 1..3) and `formData`. `nextStep`, `prevStep` and
  `handleChange` are methods. The Back/Continue/Submit buttons and the
  progress circles are functions of the step.
- **The home page** (`Page`). A class holds the program-search form, the
  newsletter address and the typing animation of the hero title.
  `handleProgramSearch` is split at its `await` into `StartSearch` and
  `FinishSearch`, and the status timeout is `ClearStatus`. The typing interval
  is `TypingTick` and its restart timeout is `RestartTyping`. The `CountUp`
  target is parsed by pure functions: comma stripping, then the leading
  decimal digits.
- **The navigation bar** (`NavbarComponent`). `Slug` is the pure function
  behind the `/study/…` and `/partner/…` links. A class holds the six boolean
  flags and has one method per event handler.

The code does not release the connection exactly once, and the model follows
the code. If the `end()` after a successful insert throws, the row stays
inserted. The catch block then calls `end()` again and the answer is 500. If
that second `end()` also throws, the error escapes the handler
(`Outcome.Threw`).

## Model

| member | source | states |
|---|---|---|
| `Json.Truthy` | src/app/api/submit-form/route.js:12 | JavaScript ToBoolean: undefined, null, false, 0 and "" are falsy; every other value, including `[]` and `{}`, is truthy |
| `Json.Or` | src/app/api/submit-form/route.js:54 | `a \|\| b` is one of its operands; it is truthy iff either operand is; it is `a` when `a` is truthy and `b` otherwise |
| `Json.StrTruthy` | src/app/api/submit-form/route.js:12 | a string field passes the presence check exactly when it is non-empty |
| `Json.ContainersTruthy` | src/app/api/submit-form/route.js:12 | the check is JavaScript falsiness: `[]` and `{}` pass, while `0`, `false` (and null, undefined, "") do not |
| `SubmitForm.Complete` | src/app/api/submit-form/route.js:12 | the handler's validation: all three destructured fields are truthy |
| `SubmitForm.BadRequest` | src/app/api/submit-form/route.js:13-16 | the validation failure answer: code 400, status "error", message "Incomplete data provided." |
| `SubmitForm.Created` | src/app/api/submit-form/route.js:39-42 | the success answer: code 200, status "success", message "Your inquiry has been submitted successfully!" |
| `SubmitForm.RowOf` | src/app/api/submit-form/route.js:30-33 | the row the INSERT writes (field_of_study, destination, education_level) has every column truthy exactly when the inquiry passed the validation |
| `SubmitForm.ServerError` | src/app/api/submit-form/route.js:53-56 | a caught error gives code 500 and status "error"; the message is the error's message when that is truthy, else "An internal server error occurred.", so it is never falsy |
| `SubmitForm.AnswersWellFormed` | src/app/api/submit-form/route.js:12-57 | each of the three answers has status "success" exactly when its code is 200, otherwise "error" with 400 or 500, and a truthy message |
| `SubmitForm.Database.CreateConnection` | src/app/api/submit-form/route.js:22-27 | on success one more connection is created and open; on failure nothing changes; the error is the injected fault |
| `SubmitForm.Database.Execute` | src/app/api/submit-form/route.js:30-33 | on success exactly the given row is appended; on failure the table is unchanged |
| `SubmitForm.Database.End` | src/app/api/submit-form/route.js:36 | every call is counted; only a successful call closes the connection |
| `SubmitForm.Post` | src/app/api/submit-form/route.js:6-58 | falsy field: 400 "Incomplete data provided.", no connection, no end(), table unchanged. Connect fails: 500 with its message, no row, no end(). Insert fails: no row, end() once in the catch, 500. All succeed: exactly `RowOf(q)` appended, end() once, 200 with the success message. Close fails: row kept, end() twice, 500. An end() failing in the catch escapes the handler. In every case the answer is well formed, at most the submitted row is added, and a table of complete rows stays complete |
| `FeedbackForm.PrevAfterNext` | src/app/components/FeedbackForm.tsx:30-36 | from any step below 3, `prevStep` after `nextStep` returns to the original step |
| `FeedbackForm.NextAfterPrev` | src/app/components/FeedbackForm.tsx:30-36 | from any step above 1, `nextStep` after `prevStep` returns to the original step |
| `FeedbackForm.RunStaysInRange` | src/app/components/FeedbackForm.tsx:30-36 | any sequence of Continue/Back clicks from a step in 1..3 ends in 1..3 |
| `FeedbackForm.ForwardsSaturate` | src/app/components/FeedbackForm.tsx:30-32 | n clicks on Continue from step s reach min(s + n, 3) |
| `FeedbackForm.BacksSaturate` | src/app/components/FeedbackForm.tsx:34-36 | n clicks on Back from step s reach max(s - n, 1) |
| `FeedbackForm.ButtonsMatchTransitions` | src/app/components/FeedbackForm.tsx:332-359 | Back is offered exactly where `prevStep` moves; Continue exactly where `nextStep` moves; Submit exactly on step 3 |
| `FeedbackForm.ProgressConsistent` | src/app/components/FeedbackForm.tsx:68-77 | circle `num` is current iff `num == step`, completed iff `num < step`, pending iff `num > step`; the connector before `num` is filled iff that circle is not pending |
| `FeedbackForm.InitialFormDataDefaults` | src/app/components/FeedbackForm.tsx:16-19 | the initial record has intakeYear "2024", intakeSeason "Fall" and budget "20000" |
| `FeedbackForm.InitialFormDataEmpty` | src/app/components/FeedbackForm.tsx:7-21 | every other initial field is the empty string |
| `FeedbackForm.GetStartedPage.constructor` | src/app/components/FeedbackForm.tsx:6-21 | the wizard starts on step 1 with the initial record |
| `FeedbackForm.GetStartedPage.HandleChange` | src/app/components/FeedbackForm.tsx:25-28 | field `name` becomes `value` (added if absent); every other field keeps its value; no other key appears |
| `FeedbackForm.GetStartedPage.NextStep` | src/app/components/FeedbackForm.tsx:30-32 | adds exactly 1 when step < 3, else leaves it; keeps step in 1..3 |
| `FeedbackForm.GetStartedPage.PrevStep` | src/app/components/FeedbackForm.tsx:34-36 | subtracts exactly 1 when step > 1, else leaves it; keeps step in 1..3 |
| `FeedbackForm.GetStartedPage.Buttons` | src/app/components/FeedbackForm.tsx:332-359 | Back is shown iff step is not 1; Submit replaces Continue iff step is 3 |
| `Page.StatusAfter` | src/app/page.tsx:191-201 | kind "success" iff the response is ok with body status "success", and then the message is the server's; otherwise kind "error"; for a received response the message is its truthy message or "An unknown error occurred."; a thrown error keeps its own message |
| `Page.RequestAcceptedIffNonEmpty` | src/app/api/submit-form/route.js:12-17 | the endpoint's check accepts the body the search form posts (`ToInquiry`, page.tsx lines 174-178) exactly when all three selections are non-empty |
| `Page.DeliveredStatus` | src/app/page.tsx:189-201 | for every well-formed answer of the endpoint, the page reports success exactly on a 200 and shows the endpoint's message |
| `Page.StripCommas` | src/app/page.tsx:46 | the result holds no ',' and is no longer than the input |
| `Page.StripCommasAppend` | src/app/page.tsx:46 | comma removal distributes over concatenation, so all other characters are kept in order |
| `Page.StripCommasNoComma` | src/app/page.tsx:46 | a string without commas is returned unchanged |
| `Page.StripCommasIdempotent` | src/app/page.tsx:46 | stripping twice equals stripping once |
| `Page.LeadingDigits` | src/app/page.tsx:46 | `parseInt` reads the longest prefix of decimal digits: a prefix, all digits, followed by a non-digit or the end |
| `Page.LeadingDigitsOfDigits` | src/app/page.tsx:46 | an all-digit string is read whole |
| `Page.EndValue` | src/app/page.tsx:46 | a numeric target is used as is; a string target is NaN exactly when no digit leads it after comma removal |
| `Page.StripGrouped` | src/app/page.tsx:46 | removing the commas of a number written with thousands separators leaves a non-empty digit string of the same value |
| `Page.EndValueOfGrouped` | src/app/page.tsx:46 | a target written with thousands separators ("750,000") parses to exactly that number |
| `Page.EndValueOfDecimal` | src/app/page.tsx:374-377 | a target written as plain decimal digits, as the statistics pass them ('750000', '1500', '95', '0'), parses to exactly that number |
| `Page.HomePage.constructor` | src/app/page.tsx:75-92 | all fields start empty, the status cleared, not submitting, title empty and incomplete, typing from i = 0 |
| `Page.HomePage.TypingTick` | src/app/page.tsx:100-108 | while i ≤ length, the title becomes the first i characters of the full title and i grows by 1; otherwise the interval stops and the title is marked complete; the title is always a prefix of the full title, and completeness never reverts |
| `Page.HomePage.RestartTyping` | src/app/page.tsx:109-113 | the restart resets i to 0 and the title to "", and typing resumes; completeness is kept |
| `Page.HomePage.SetFieldOfStudy` | src/app/page.tsx:301 | the select's value is stored |
| `Page.HomePage.SetDestination` | src/app/page.tsx:317 | the select's value is stored |
| `Page.HomePage.SetEducationLevel` | src/app/page.tsx:333 | the select's value is stored |
| `Page.HomePage.SetEmail` | src/app/page.tsx:614 | the input's value is stored |
| `Page.HomePage.StartSearch` | src/app/page.tsx:169-186 | sets isSubmitting and status {"Submitting...", "info"}; the request is exactly the three current values |
| `Page.HomePage.FinishSearch` | src/app/page.tsx:189-203 | the status becomes `StatusAfter(res)`; the three fields are reset to "" exactly on success and kept otherwise; isSubmitting becomes false |
| `Page.HomePage.ClearStatus` | src/app/page.tsx:205 | the delayed reset clears the status to {"", ""} |
| `Page.HomePage.SubmitEmail` | src/app/page.tsx:210-216 | the newsletter submit clears the address |
| `NavbarComponent.ToLower` | src/app/components/Navbar.tsx:138 | the result is never upper-case; whitespace stays whitespace; A–Z move to a–z and every other character is kept |
| `NavbarComponent.DropSpaces` | src/app/components/Navbar.tsx:138 | skipping a whitespace run leaves a string that is empty or starts with a non-space |
| `NavbarComponent.Slug` | src/app/components/Navbar.tsx:138 | the slug is never longer than the name |
| `NavbarComponent.SlugIsClean` | src/app/components/Navbar.tsx:138 | the slug holds no whitespace and no upper-case letter |
| `NavbarComponent.SlugOfWord` | src/app/components/Navbar.tsx:138 | a name without whitespace is only lower-cased |
| `NavbarComponent.SlugJoin` | src/app/components/Navbar.tsx:138 | at every maximal whitespace run, the slug is the two sides' slugs joined by a single '-' (together with `SlugOfWord` this pins down the function) |
| `NavbarComponent.SlugOfTwoWords` | src/app/components/Navbar.tsx:18-31 | a two-word entry such as "United Kingdom" becomes "united-kingdom" |
| `NavbarComponent.StudyHref` | src/app/components/Navbar.tsx:138 | desktop (and mobile, line 305) study links are "/study/" followed by a slug: no whitespace or upper case after the prefix, at most the name's length |
| `NavbarComponent.PartnerHref` | src/app/components/Navbar.tsx:193 | desktop (and mobile, line 345) partner links are "/partner/" followed by a slug, with the same guarantees |
| `NavbarComponent.Navbar.constructor` | src/app/components/Navbar.tsx:7-12 | every flag starts false |
| `NavbarComponent.Navbar.HandleScroll` | src/app/components/Navbar.tsx:36-42 | isScrolled is true iff scrollY > 10 |
| `NavbarComponent.Navbar.ClickStudy` | src/app/components/Navbar.tsx:108 | the Study button negates its flag and touches nothing else |
| `NavbarComponent.Navbar.EnterStudy` | src/app/components/Navbar.tsx:101 | mouse-enter opens the Study dropdown |
| `NavbarComponent.Navbar.LeaveStudy` | src/app/components/Navbar.tsx:102 | mouse-leave closes the Study dropdown |
| `NavbarComponent.Navbar.ChooseStudyEntry` | src/app/components/Navbar.tsx:140 | choosing a desktop study entry closes only that dropdown |
| `NavbarComponent.Navbar.ClickPartner` | src/app/components/Navbar.tsx:163 | the Partner button negates its flag |
| `NavbarComponent.Navbar.EnterPartner` | src/app/components/Navbar.tsx:156 | mouse-enter opens the Partner dropdown |
| `NavbarComponent.Navbar.LeavePartner` | src/app/components/Navbar.tsx:157 | mouse-leave closes the Partner dropdown |
| `NavbarComponent.Navbar.ChoosePartnerEntry` | src/app/components/Navbar.tsx:195 | choosing a desktop partner entry closes only that dropdown |
| `NavbarComponent.Navbar.ClickMenuButton` | src/app/components/Navbar.tsx:231 | the hamburger button negates isMenuOpen |
| `NavbarComponent.Navbar.CloseMenu` | src/app/components/Navbar.tsx:268 | the close button closes the mobile menu; the logo, "Log in" and "Get Started" links (lines 256, 373, 380) do the same |
| `NavbarComponent.Navbar.ClickMobileStudy` | src/app/components/Navbar.tsx:283 | the mobile Study toggle negates its flag |
| `NavbarComponent.Navbar.ChooseMobileStudyEntry` | src/app/components/Navbar.tsx:307-310 | a mobile study entry closes its sub-menu and the mobile menu |
| `NavbarComponent.Navbar.ClickMobilePartner` | src/app/components/Navbar.tsx:323 | the mobile Partner toggle negates its flag |
| `NavbarComponent.Navbar.ChooseMobilePartnerEntry` | src/app/components/Navbar.tsx:347-350 | a mobile partner entry closes its sub-menu and the mobile menu |
| `NavbarComponent.Navbar.ClickDocument` | src/app/components/Navbar.tsx:50-63 | a document click closes each open menu whose region does not hold the target; a menu whose region holds it, a null target, and both mobile sub-menus are left unchanged |

## Left out

- Parsing the request body with `req.json()` and destructuring it (route.js lines 8-9). These run outside the try block. The model takes the three destructured values as input.
- The MySQL driver, its connection options and the SQL text. They are foreign I/O, abstracted as the fallible `Database` calls. Whether a failed `end()` still closes the connection is not known; the model counts such a connection as still open.
- What Next.js sends when an error escapes the handler (`Outcome.Threw`). That is framework behaviour.
- `console.error`, `console.log` and `alert`. These are output only. This covers the wizard's `handleSubmit` (FeedbackForm.tsx lines 39-44), which changes no state.
- Concurrent requests. Each request has its own connection and no shared in-process state.
- `fetch`, `response.json()`, `setInterval`/`setTimeout` and `requestAnimationFrame` scheduling, `IntersectionObserver`, event-listener registration and React rendering. The model keeps only the state changes they trigger. A fetch that rejects, a body that is not JSON, and a result that is not an object all end in the same catch block; they are folded into `FetchResult.Failed`.
- `Page.StatusAfter` (and `Page.HomePage.FinishSearch`, which stores its result): the error's message is kept as the JSON value. `new Error(v)` would apply `String(v)` to a truthy non-string `result.message`; that conversion is not modelled.
- The effect that shows the buttons and form 100/200 ms after the title first completes (page.tsx lines 125-134). It is timer plumbing around `isTitleComplete`.
- The `CountUp` progress and count computation, the 3D tilt maths and `Intl.NumberFormat`. These are floating-point, time-based or library behaviour.
- `Page.EndValue`: `parseInt`'s leading whitespace, sign and `0x` prefix are not modelled. The model reads only the leading decimal digits. `parseInt` returns a double, so digit strings above 2^53 are rounded; the model gives their exact value.
- `NavbarComponent.Slug`: ASCII only. `toLowerCase` is modelled on A–Z, and `\s` on space, tab, line feed, carriage return, vertical tab and form feed. Unicode case mapping and non-ASCII whitespace are out of scope.
- JSON numbers are modelled as reals. NaN cannot come out of `JSON.parse`, so a number is falsy exactly when it is 0.
- Markup, CSS classes, static content arrays, and `src/app/layout.tsx`, which is layout only.
