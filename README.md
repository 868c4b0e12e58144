# Duitku payment callback for Moodle enrolment, in Dafny

This project models the payment-settlement path of the `enrol_duitku` Moodle
plugin.

- `callback.php` is the script the Duitku gateway calls when a payment settles. It runs these gates in order:
  - the plugin must be enabled;
  - all ten request parameters must be present;
  - the order id must have at least four `-`-separated segments;
  - merchantCode, amount, merchantOrderId and signature must be non-empty;
  - the MD5 signature must match;
  - the inline resultCode must be `"00"`;
  - the user, the course and an active `duitku` enrol instance must exist;
  - an independent `transactionStatus` re-check with the gateway must report `"00"`.

  Then it enrols the user, updates the stored transaction row and sends the configured mails.
- `classes/duitku_helper.php` builds the two outgoing gateway requests (`create_transaction` and `check_transaction`) and returns the gateway's raw reply.

The files:

- `wrappers.dfy` has `Option` and `Result`.
- `php.dfy` (`Php`) holds the PHP built-ins whose exact behaviour the callback depends on:
  - `empty()` on strings;
  - `explode`;
  - the `(int)` cast, including leading white space, sign, digit prefix, the cap to the 64-bit bounds and the 0 that a digit run too large for a double gives;
  - decimal rendering.
- `duitku_helper.dfy` (`Duitku`) holds:
  - the pure request builders;
  - the `Helper` class, whose fields are constants set only by its constructor;
  - the `Endpoint` class, which stands for curl and the remote gateway. It logs each POST and answers it with a given function.
- `callback.dfy` (`Callback`) holds:
  - the pipeline as a pure function `Handle` of the site state `Db`;
  - the `Site` class, whose tables are updated in place. Its method `HandleCallback` runs the script step by step and is proved to produce exactly what `Handle` says.
- `callback_properties.dfy` (`CallbackProperties`) holds the properties of `Handle`.

MD5, SHA-256, `json_encode` and the `statusCode` that `json_decode` extracts are parameters of the model (the `Primitives` record). `time()` and the `microtime`-based stamp are parameters `now` and `stamp`. The gateway's behaviour is the `respond` function of an `Endpoint`.

Behaviour of the code that the model makes explicit, where it departs from what one would expect:

- A repeated successful callback calls `enrol_user` again with the same arguments (`CallbackProperties.RepeatedCallbackEnrolsAgain`). Nothing deduplicates.
- If the transaction row is missing, `update_record` fails only after `enrol_user` has already run. The user stays enrolled, no row is updated and no mail is sent (`CallbackProperties.MissingRowLeavesEnrolment`).
- The re-check is signed with the merchant code that came in the callback, not with a stored one (`Callback.RecheckPost`).
- The HTTP status code of the re-check is read but never consulted.
- The enrol instance's own course is never compared with the course id from the order id.
- The empty-order-id test at `callback.php:60` can never fire, because the four-segment test before it already excludes "" and "0" (`CallbackProperties.OrderIdNeverEmptyAfterSplit`).
- An id segment of 309 or more digits whose value is too large for a double reads as 0, not as the largest `int` (`CallbackProperties.OverflowingUserIdReadsAsZero`).
- The stored `enrolperiod` is signed and the script does not check it: a negative period gives a `timeend` before `timestart` (`Callback.EnrolWindow`).
- The callback signature concatenates its fields with no delimiter, so it does not fix where merchantCode ends and amount begins (`CallbackProperties.SignatureIgnoresFieldBoundary`).
- The success code `"00"` is the value of `duitku_status_codes::CHECK_STATUS_SUCCESS` that the model assumes. `classes/duitku_status_codes.php` is not part of this model.

## Model

| member | source | states |
|---|---|---|
| Php.Explode | callback.php:55 | `explode('-', …)` yields one piece more than there are separators, and no piece contains the separator, so "" gives one piece |
| Php.ImplodeExplode | callback.php:55 | rejoining the pieces with the separator gives back the original order id |
| Php.ExplodePrefix | callback.php:55 | a separator-free prefix stays glued to the first piece |
| Php.ExplodeImplode | callback.php:55 | exploding a join of separator-free pieces gives back exactly those pieces |
| Php.SkipSpace | callback.php:76 | the `(int)` cast drops exactly the leading white-space run |
| Php.DigitPrefix | callback.php:76 | the digits read are the longest all-digit prefix |
| Php.CapToInt | callback.php:76 | a value that fits a 64-bit `int` is kept; a larger one is capped to the bounds; one of magnitude at least `DoubleOverflow` (an infinite double) gives 0 |
| Php.Empty | callback.php:60 | `empty()` of a string holds exactly for "" and "0" |
| Php.IntCast | callback.php:76-85 | `(int)` always yields a 64-bit integer |
| Php.Decimal | classes/duitku_helper.php:94 | `strlen(...)` concatenated into a header renders as digits with no leading zero |
| Php.DigitsValueDecimal | classes/duitku_helper.php:94 | the rendered digits denote the number |
| Php.DigitPrefixOfNumber | callback.php:76 | the digit run of a rendered number followed by a non-digit is that number's rendering |
| Php.IntCastOfRendered | callback.php:76-85 | `(int)` of a rendered number, after white space and before a non-digit, is that number as `CapToInt` caps it |
| Php.IntCastOfDecimal | callback.php:76-85 | `(int)` of a rendered number that fits an `int`, after white space and before a non-digit, is that number |
| Php.IntCastOfHuge | callback.php:76-85 | `(int)` of a rendered number of magnitude at least `DoubleOverflow` is 0 |
| Php.IntCastUnsigned | callback.php:76 | after the white space, a leading digit means no sign is read, and the result is the digit run's value passed through `CapToInt` (kept, capped, or 0 past double range) |
| Php.SkipSpaceOver | callback.php:76 | skipping white space removes exactly a white-space prefix |
| Duitku.BaseUrl | classes/duitku_helper.php:76 | the sandbox base URL exactly when the environment is `"sandbox"`, else the production URL |
| Duitku.SignatureInput | classes/duitku_helper.php:90-154 | the signed string is the merchant code, then the timestamp (SHA-256) or the order id (MD5), then the key, undelimited and recoverable by position |
| Duitku.HeaderLines | classes/duitku_helper.php:92-98 | each header line is its name, `:` and its value, in order |
| Duitku.HeaderName | classes/duitku_helper.php:92-98 | a header's name is a colon-free prefix of its line |
| Duitku.HeaderValue | classes/duitku_helper.php:92-98 | a header's value is shorter than its line |
| Duitku.HeaderSplit | classes/duitku_helper.php:92-98 | a line built from a name and a value splits back into them |
| Duitku.HeaderLinesSplit | classes/duitku_helper.php:92-98 | each built header line splits back into its own name and value |
| Duitku.CreateHeadersFields | classes/duitku_helper.php:92-98 | the five headers, in order, carry the content type, a Content-Length that reads back as the body length, the signature, the timestamp and the merchant code |
| Duitku.ContentLengthValue | classes/duitku_helper.php:94 | the Content-Length value reads back as the length |
| Duitku.CheckHeadersFields | classes/duitku_helper.php:167-170 | the two check headers are the content type and a Content-Length matching the body |
| Duitku.CreateHeaderFields | classes/duitku_helper.php:92-98 | five colon-free header names; Content-Length's value is the rendered body length, then the signature, the timestamp and the merchant code |
| Duitku.CheckHeaderFields | classes/duitku_helper.php:167-170 | two colon-free header names, the same first two headers that create_transaction sends |
| Duitku.CheckParams | classes/duitku_helper.php:155-159 | the keys are merchantCode, merchantOrderId and signature, in that order |
| Duitku.CreateTransactionPost | classes/duitku_helper.php:89-98 | the URL is the base URL plus `/createInvoice`, the body is the params string, and the third of the five headers carries SHA-256(code+timestamp+key) |
| Duitku.CheckTransactionPost | classes/duitku_helper.php:153-160 | the URL is the base URL plus `/transactionStatus`, the body is the JSON of the three fields signed with MD5(code+order id+key), and there are two headers |
| Duitku.Field | classes/duitku_helper.php:155-159 | looking up a key finds its pair, or finds none when no pair has that key |
| Duitku.Keys | classes/duitku_helper.php:155-159 | the keys of the array, in order |
| Duitku.CheckParamsFields | classes/duitku_helper.php:155-159 | the check body has exactly the keys merchantCode, merchantOrderId and signature, holding the given values |
| Duitku.RequestUrls | classes/duitku_helper.php:76-153 | both requests go to the sandbox host exactly when the environment is `"sandbox"`; the paths are `/createInvoice` and `/transactionStatus` |
| Duitku.Endpoint.constructor | classes/duitku_helper.php:100 | a fresh connection has sent nothing |
| Duitku.Endpoint.Exchange | classes/duitku_helper.php:187-188 | one POST is recorded and its reply is the gateway's answer to it |
| Duitku.Helper.constructor | classes/duitku_helper.php:71-77 | the fields hold the arguments and the base URL is chosen by the environment |
| Duitku.Helper.CreateTransaction | classes/duitku_helper.php:86-144 | exactly one POST, with the createInvoice URL, the five headers and the params string as its body; returns the raw reply and HTTP code |
| Duitku.Helper.CheckTransaction | classes/duitku_helper.php:150-210 | exactly one POST, with the transactionStatus URL and a JSON body signed with md5(code+order id+key); returns the raw reply, the HTTP code and the URL |
| Callback.FirstMissing | callback.php:43-52 | none is missing iff all names are present; otherwise the first absent name |
| Callback.ReadParams | callback.php:43-52 | succeeds iff all ten parameters are present, and then each of the ten fields is the request's value under its name; otherwise fails on the first missing one |
| Callback.CallbackSignatureInput | callback.php:64 | the signed string is merchantCode and amount, then merchantOrderId, then the key, undelimited |
| Callback.Authenticate | callback.php:55-73 | passes iff there are four segments, the four fields are non-empty, the signature matches and resultCode is "00"; then the ids are `OrderIds` of the segments; otherwise one of the four request errors |
| Callback.OrderIds | callback.php:76-85 | the three ids are 64-bit integers read from segments 1, 2 and 3 |
| Callback.Lookup | callback.php:76-86 | succeeds iff the user, the course and an active `duitku` instance with those ids exist, returning that instance |
| Callback.EnrolWindow | callback.php:88-94 | (0, 0) when the period is 0, otherwise (now, now + period); start <= end exactly when the signed period is not negative |
| Callback.SetWindow | callback.php:88-94 | the start and end passed to `enrol_user` are the window `EnrolWindow` specifies |
| Callback.Confirmed | callback.php:100-104 | the re-check passes exactly when a body came back and its statusCode is "00" (its consequences are `CallbackProperties.UnconfirmedRejected`) |
| Callback.UpdatedRow | callback.php:129-134 | the row keeps its id and gets the result code, the note and the stamp |
| Callback.Teacher | callback.php:138-143 | a teacher exists iff the course has a course updater, and it is the first one |
| Callback.StudentMails | callback.php:172-184 | one mail iff mailstudents is non-empty, to the student, from the teacher or else the support user |
| Callback.TeacherMails | callback.php:186-196 | one mail iff mailteachers is non-empty and a teacher exists, to the teacher, from the student |
| Callback.Notifications | callback.php:172-213 | as many mails as the three decisions call for (their content is `CallbackProperties.MailDecisions`) |
| Callback.RecheckPost | callback.php:96-99 | the re-check goes to `/transactionStatus` of the configured environment and is signed from the callback's own merchantCode and merchantOrderId with the stored key |
| Callback.Admission | callback.php:36-86 | on success the plugin is enabled, the parameters are the request's, and the ids name an existing user, course and active instance, which is returned |
| Callback.Commit | callback.php:107-134 | exactly one enrolment call is appended, no request is sent, the outcome is enrolment or a missing row, and no row key, user, course or instance changes |
| Callback.Handle | callback.php:36-213 | at most one gateway request; users, courses, instances, teachers, admins and row keys are never changed (its gates and effects are the CallbackProperties lemmas) |
| Callback.AdminMails | callback.php:198-213 | one mail per admin, in order, each from the student |
| Callback.Site.constructor | callback.php:78-86 | the site's tables hold the given state |
| Callback.Site.Notify | callback.php:172-213 | appends exactly the student, teacher and admin mails the configuration calls for |
| Callback.Site.NotifyAdmins | callback.php:198-213 | appends one mail to each admin, in order |
| Callback.Site.Admit | callback.php:36-86 | the gates, one after another, give the result `Admission` specifies, and nothing changes |
| Callback.Site.HandleCallback | callback.php:36-213 | the outcome, the new site state and the requests sent are exactly those of `Handle` |
| Callback.Site.CommitCallback | callback.php:107-213 | enrolment, row update and mails leave exactly the state `Commit` specifies |
| CallbackProperties.ShortOrderIdRejected | callback.php:55-58 | an order id with fewer than three `-` (the empty one included) is refused as invalid, with nothing changed and nothing sent |
| CallbackProperties.EmptyFieldRejected | callback.php:60-62 | an empty merchantCode, amount or signature gives "Bad Parameter", with nothing changed and nothing sent |
| CallbackProperties.OrderIdNeverEmptyAfterSplit | callback.php:55-62 | an order id with four segments is never `empty()`, so that test at line 60 is dead |
| CallbackProperties.ForgedSignatureRejected | callback.php:64-68 | a signature other than md5(code+amount+order id+key) gives "Bad Signature", with nothing changed and nothing sent |
| CallbackProperties.InlineFailureRejected | callback.php:71-73 | a failure resultCode gives "Payment Failed" before any lookup or request |
| CallbackProperties.AdmissionIff | callback.php:36-86 | the gates pass iff every one of the listed conditions holds, and then the ids are segments 1-3 and the instance is the stored one |
| CallbackProperties.GatewayCalledOnlyAfterGates | callback.php:96-99 | a gateway request is sent iff every gate passed, and it is then the single re-check request |
| CallbackProperties.EnrolmentIff | callback.php:96-107 | `enrol_user` is called, exactly once, iff every gate passed and the re-check confirmed the payment; otherwise enrolments are untouched |
| CallbackProperties.EnrolmentCall | callback.php:76-107 | the enrolment is for the user and instance of segments 1 and 3, with the instance's role and window, which ends no earlier than it starts exactly when the period is not negative |
| CallbackProperties.SuccessUpdatesOneRow | callback.php:121-134 | on success exactly the row under (user, course, instance, reference) gets "00", the note and the stamp; the other rows are unchanged |
| CallbackProperties.RejectionKeepsRowsAndMails | callback.php:36-134 | a refused callback updates no row and sends no mail |
| CallbackProperties.UnconfirmedRejected | callback.php:100-104 | a missing reply, or one whose statusCode is not "00", stops the script with only the request sent |
| CallbackProperties.MissingRowLeavesEnrolment | callback.php:107-134 | a missing row stops the script after the enrolment, with rows and mails unchanged |
| CallbackProperties.RepeatedCallbackEnrolsAgain | callback.php:107 | replaying a successful callback succeeds again and calls `enrol_user` a second time with the same arguments |
| CallbackProperties.ExampleCasts | callback.php:76-85 | `(int)` of "7", "3" and "19" is 7, 3 and 19 |
| CallbackProperties.CastOfDecimal | callback.php:76-85 | `(int)` of a rendered number is that number |
| CallbackProperties.ExampleOrderIdWithSuffix | callback.php:55-85 | pieces "42", "7", "3", "19", followed by anything, name user 7, course 3 and instance 19 |
| CallbackProperties.ExampleOrderId | callback.php:55-85 | "42-7-3-19" names user 7, course 3 and instance 19 |
| CallbackProperties.OverflowingUserIdReadsAsZero | callback.php:76 | a user-id segment whose value is at least `DoubleOverflow` reads as user 0 |
| CallbackProperties.OfKind | callback.php:172-213 | the mails of one kind, in order, are no more than all the mails |
| CallbackProperties.OfKindAppend | callback.php:172-213 | selecting one kind distributes over concatenation |
| CallbackProperties.OfKindAdminMails | callback.php:198-213 | the admin loop sends only admin mails |
| CallbackProperties.MailsOfKind | callback.php:172-213 | the mails of one kind in student, teacher and admin mails are those of each part, in order |
| CallbackProperties.OfKindSingle | callback.php:172-213 | one mail is selected exactly when it has the kind |
| CallbackProperties.StudentMailDecision | callback.php:172-184 | a student mail iff mailstudents is set, from the teacher or else the support user |
| CallbackProperties.TeacherMailDecision | callback.php:186-196 | a teacher mail iff mailteachers is set and a teacher exists |
| CallbackProperties.AdminMailDecision | callback.php:198-213 | one admin mail per admin, in order, iff mailadmins is set |
| CallbackProperties.MailDecisions | callback.php:138-213 | a student mail iff mailstudents is set, from the teacher or else the support user; a teacher mail iff mailteachers is set and a teacher exists; one admin mail per admin, in order, iff mailadmins is set |
| CallbackProperties.SuccessSendsNotifications | callback.php:138-213 | on success the mails sent are exactly those decisions, after the existing mails |
| CallbackProperties.SignatureIgnoresFieldBoundary | callback.php:64-65 | moving characters between merchantCode and amount leaves the signature input unchanged |

## Left out

- curl, TLS and the transport. The gateway is a function from request to reply. `CURLOPT_SSL_VERIFYPEER` is set to false in both helper requests, so the peer certificate is not checked; the model assumes the reply really comes from Duitku.
- MD5, SHA-256, `json_encode` and `json_decode` are opaque parameters. Their algorithms and encodings are outside the model.
- ForgedSignatureRejected: the signature test at `callback.php:66` uses PHP's loose `!=`. The model uses exact string inequality, so it does not capture that two numeric-looking hashes such as "0e…" strings compare equal in PHP.
- IntCast: the exponent and fraction forms that PHP reads through a float ("1e" followed by digits, "7.9") are not modelled. The double rounding of a digit run too long for an `int` is modelled only in its effect: the cap, or 0 at infinity.
- Content-Length: `strlen` counts bytes. The model counts characters of `seq<char>`, which agree only for ASCII bodies.
- `required_param(..., PARAM_TEXT)` cleaning of the values is not modelled. Values are taken as they arrive.
- Logging (`log_request` and the events) writes nothing the callback reads, so it is left out.
- `get_admin()`, the page context, `format_string` and the mail subjects, templates and bodies are left out. A mail is modelled by its kind, recipient and sender only.
- `sort_by_roleassignment_authority` is left out. The course's teachers are given in authority order.
- The `microtime(true) * 1000` rounding is left out. The timeupdated stamp is a parameter.
- `classes/api.php` (the payment-page caller of `create_transaction`) is not part of this model. `Helper.CreateTransaction` takes its params string and timestamp as arguments.
- The transaction table is a map from the natural key (userid, courseid, instanceid, reference). The model assumes at most one row per key. `get_record` at `callback.php:128` uses the default IGNORE_MISSING, so with several matching rows Moodle only emits a debugging notice and returns the first; the script then updates that one row. The one-row-per-key map does not capture duplicates.
- `enrol_user` is modelled as a recorded call. Its effect on the enrolment tables is out of scope.
