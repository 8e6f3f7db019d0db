# Interview-prep web app: the decision logic behind its pages and its recommendations endpoint

The application signs users up and routes them after login. It walks them
through a four-step onboarding form and asks a hosted language model for
LeetCode practice recommendations. This project models the parts of it that
decide something, as Dafny:

- **Recommendations endpoint** (`recommendations.dfy`, `json.dfy`):
  - the 401 and 404 gates;
  - recovering a JSON object from the model's reply: parse the whole text, else the span from the first `{` to the last `}`;
  - the 502 answer for a falsy result;
  - annotating each recommendation with a problem-set filter link built from its tag slug and a three-way difficulty mapping.
- **Onboarding wizard** (`onboarding.dfy`):
  - the sentence counter (`split(/[.!?\n]+/)`, trim, keep pieces of four or more code units);
  - the four step checks;
  - the component state as the class `Onboarding.Wizard`, whose methods are the `next`, `back`, `bind`, `toggleFocus` and `submit` handlers;
  - the profile payload sent on submit.
- **Sign-up page** (`signup.dfy`):
  - the five-part password rule and the checklist that mirrors it;
  - e-mail normalisation (trim, then lower-case);
  - the submit handler over the page state as the class `Signup.SignUpPage`.
- **Post-login gate** (`post_login.dfy`): the fixed chain session → e-mail confirmed → select error → missing row (insert it) → onboarded flag. It ends on one of four destinations.
- **Shared helpers** (`text.dfy`, `wrappers.dfy`): the JavaScript string builtins these rely on. `.length` counts UTF-16 code units, as JavaScript does.

Every awaited call becomes an input of the model. The auth lookups, the profile select and update, the completion call and `signUp` are each a reply value or a function from request to reply. The post-login insert, whose reply the page never reads, is part of the gate's result instead. A lemma quantified over such a function shows that a call is not made before a guard. `JSON.parse`, `encodeURIComponent` and Number-to-string stay uninterpreted: they are function parameters. An exception the code does not catch is the value `Unhandled`. A redirect or `router.push` is the returned route.

The endpoint builds only problem-set filter links (no link to a single question). It keeps every item of the list, malformed ones included, and does not treat a non-array `recommendations` as empty. A non-array, non-null `recommendations` makes `.map` throw, and the model says so (`WithLinks` returns `None`, `Get` answers `Unhandled`).

## Model

| member | source | states |
|---|---|---|
| Recommendations.Get | src/app/api/recommendations/route.ts:18-98 | no user gives 401 "Not authenticated" whatever the profile store holds; a read error or missing row gives 404 "Profile not found" whatever the completion service would say; a 200 body is an object with a `recommendations` property; the only statuses are 200, 401, 404 and 502 |
| Recommendations.CallFailedIsUnhandled | src/app/api/recommendations/route.ts:59-66 | a completion call that throws escapes the route, which has no catch around it |
| Recommendations.RecoveredValueAnswer | src/app/api/recommendations/route.ts:79-97 | once a truthy value is recovered, the answer is 200 with exactly that value annotated by `WithLinks`, or the exception from `.map` escapes |
| Recommendations.ModelName | src/app/api/recommendations/route.ts:60 | an unset or empty `GROQ_MODEL` selects `llama3-70b-8192`, any other value is used as given |
| Recommendations.RawContent | src/app/api/recommendations/route.ts:68 | missing completion content is read as the text `{}` |
| Recommendations.BraceSpan | src/app/api/recommendations/route.ts:73-75 | the fallback span exists exactly when some `{` comes before some `}`; it is the inclusive slice from the first `{` to the last `}` (positions given by IndexOf and LastIndexOf), so it opens with `{` and closes with `}` |
| Recommendations.BracePairIff | src/app/api/recommendations/route.ts:73-74 | the guard `a !== -1 && b !== -1 && b > a` holds exactly when the text has a `{` somewhere before a `}` |
| Recommendations.SafeParseJson | src/app/api/recommendations/route.ts:71-78 | a text that parses whole is returned as parsed; otherwise the result is the parse of the brace span when the text has a `{` before a `}`, and null when it has none |
| Recommendations.InvalidJsonIs502 | src/app/api/recommendations/route.ts:79-82 | any falsy recovery result (null, false, 0, "") is answered with 502 "LLM returned invalid JSON" |
| Recommendations.MissingContentIsEmptyList | src/app/api/recommendations/route.ts:68-97 | a completion without content, given that `JSON.parse("{}")` is the empty object, is answered 200 with `{"recommendations": []}` |
| Recommendations.DisplayDifficulty | src/app/api/recommendations/route.ts:88-90 | "EASY" gives "Easy" and only it; "HARD" gives "Hard" and only it; every other value, missing included, gives "Medium" |
| Recommendations.LeetcodeUrl | src/app/api/recommendations/route.ts:91-92 | the link starts with the problem-set prefix and ends with the display difficulty, which is one of Easy, Medium and Hard |
| Recommendations.AnnotateItem | src/app/api/recommendations/route.ts:87-94 | an item throws exactly when it is `null`; otherwise the result is an object whose `leetcodeUrl` is the filter link for the item's tag slug and difficulty; an object item without `leetcodeUrl` keeps its keys in order and gets `leetcodeUrl` last |
| Recommendations.AnnotateKeepsFields | src/app/api/recommendations/route.ts:93 | apart from `leetcodeUrl`, an annotated object has exactly the properties of the original |
| Recommendations.MapItems | src/app/api/recommendations/route.ts:87 | `.map` with a throwing callback aborts exactly when some item throws, and otherwise keeps length and order, item k mapped to entry k |
| Recommendations.AnnotateAll | src/app/api/recommendations/route.ts:87-94 | the list map throws exactly when a `null` item is present, and otherwise keeps the list's length |
| Recommendations.WithLinks | src/app/api/recommendations/route.ts:85-95 | a `null` or missing `recommendations` becomes `[]`; the result is missing (an exception) exactly when `recommendations` is a non-null non-array or holds a `null`; otherwise it is an object with a `recommendations` property |
| Recommendations.WithLinksKeepsFields | src/app/api/recommendations/route.ts:85-86 | every top-level property other than `recommendations` passes through unchanged |
| Recommendations.WithLinksAnnotatesEach | src/app/api/recommendations/route.ts:87-94 | for a well-formed list the output list has the same length and entry k is item k annotated, so nothing is dropped or reordered |
| JsonValue.Lookup | src/app/api/recommendations/route.ts:87 | a property read is `undefined` exactly when the key is absent, and otherwise yields a value the object holds under that key |
| JsonValue.Prop | src/app/api/recommendations/route.ts:87 | a property read yields a value only from an object holding it under that key, and always does when the object has the key |
| JsonValue.Truthy | src/app/api/recommendations/route.ts:80 | `undefined` and `null` are falsy; every array and object, even an empty one, is truthy |
| JsonValue.Put | src/app/api/recommendations/route.ts:93 | after `{...o, [key]: v}` the key reads `v` |
| JsonValue.PutKeys | src/app/api/recommendations/route.ts:85-86 | setting a key that is present keeps the key order; setting a new key appends it after the others |
| JsonValue.PutKeepsOthers | src/app/api/recommendations/route.ts:85-86 | setting one property leaves every other property's value as it was |
| JsonValue.Spread | src/app/api/recommendations/route.ts:86 | spreading an object copies its members; an array gives entry k as its element k under the key "k", a string its character k under the key "k"; null, booleans and numbers contribute nothing |
| JsonValue.ToJsString | src/app/api/recommendations/route.ts:92 | an undefined tag slug is written "undefined", a string as itself, an object as "[object Object]" |
| Text.IndexOf | src/app/api/recommendations/route.ts:73 | -1 exactly when the character is absent, otherwise the position of its first occurrence |
| Text.LastIndexOf | src/app/api/recommendations/route.ts:73 | -1 exactly when the character is absent, otherwise the position of its last occurrence |
| Text.Trim | src/app/onboarding/page.tsx:78 | the result is no longer than the input and neither starts nor ends with whitespace |
| Text.TrimSpan | src/app/onboarding/page.tsx:78 | the trimmed text is an infix of the input with only whitespace before and after it |
| Text.TrimUnique | src/app/onboarding/page.tsx:78 | any infix framed by whitespace on both sides and not itself starting or ending with whitespace is the trimmed text |
| Text.TrimOfTrimmed | src/app/onboarding/page.tsx:78 | trimming text whose ends are not whitespace changes nothing |
| Text.TrimIdempotent | src/app/onboarding/page.tsx:78 | trimming twice equals trimming once |
| Text.Lower | src/app/signup/page.tsx:38 | lower-casing keeps the length and maps every character on its own |
| Text.LowerIdempotent | src/app/signup/page.tsx:38 | lower-casing twice equals lower-casing once |
| Text.LowerKeepsTrimmed | src/app/signup/page.tsx:38 | lower-casing trimmed text leaves it trimmed |
| Text.Join | src/app/onboarding/page.tsx:108 | joining no messages gives the empty string, and one message gives that message |
| Text.JoinAppend | src/app/onboarding/page.tsx:108 | joining one more message appends the separator and that message |
| Text.Utf16Length | src/app/signup/page.tsx:17 | `.length` lies between the number of characters and twice it, and is 0 only for the empty string |
| Text.Utf16LengthAppend | src/app/signup/page.tsx:17 | `.length` of a concatenation is the sum of the lengths |
| Onboarding.FirstBreak | src/app/onboarding/page.tsx:23 | the returned position is the first of `[.!?\n]`, or the end of the text when there is none |
| Onboarding.RunEnd | src/app/onboarding/page.tsx:23 | the greedy `+` match covers only break characters and stops before a non-break or at the end |
| Onboarding.Split | src/app/onboarding/page.tsx:23 | splitting yields at least one piece and no piece contains a break character |
| Onboarding.FirstBreakAt | src/app/onboarding/page.tsx:23 | a position with no break before it and a break at it is where the first cut starts |
| Onboarding.RunEndAt | src/app/onboarding/page.tsx:23 | a stretch of breaks followed by a non-break or the end is exactly the greedy run |
| Onboarding.SplitAtRun | src/app/onboarding/page.tsx:23 | a break-free head, a non-empty run of breaks and a rest not starting with a break split into the head followed by the pieces of the rest, so the cuts fall exactly at the maximal runs |
| Onboarding.SplitKeepsText | src/app/onboarding/page.tsx:23 | the pieces put together are the text minus its break characters, in order |
| Onboarding.KeepSentences | src/app/onboarding/page.tsx:24-25 | what is kept is trimmed, at least four code units long, and no more than the pieces |
| Onboarding.KeepOne | src/app/onboarding/page.tsx:24-25 | one piece is kept, trimmed, exactly when its trimmed form has at least four code units |
| Onboarding.KeepSentencesAppend | src/app/onboarding/page.tsx:24-25 | the filter works piece by piece: the kept pieces of a concatenation are those of each part, in order |
| Onboarding.CountSentences | src/app/onboarding/page.tsx:21-26 | the count never exceeds the number of split pieces |
| Onboarding.CountAtRun | src/app/onboarding/page.tsx:21-26 | the count of head + run + rest is one for the head when its trimmed form has at least four code units, plus the count of the rest |
| Onboarding.EmptyHasNoSentence | src/app/onboarding/page.tsx:21-26 | the empty text counts 0 sentences |
| Onboarding.NoBreakAtMostOneSentence | src/app/onboarding/page.tsx:21-26 | text without a break character is a single piece and counts one sentence exactly when its trimmed form has at least four code units |
| Onboarding.TrimNoLonger | src/app/onboarding/page.tsx:78 | the trimmed text never has more code units than the text |
| Onboarding.DescriptionValidNeeds | src/app/onboarding/page.tsx:78-79 | a strengths or challenges text that passes is at least 40 code units long and contains a break character |
| Onboarding.BasicsValid | src/app/onboarding/page.tsx:77 | name, role and experience are all non-empty, untrimmed |
| Onboarding.FocusValid | src/app/onboarding/page.tsx:80 | at least one focus topic is chosen |
| Onboarding.DescriptionValid | src/app/onboarding/page.tsx:78-79 | the trimmed text has at least 40 code units and the text counts at least two sentences |
| Onboarding.StepPasses | src/app/onboarding/page.tsx:100-108 | step 0 needs the basics, step 1 a focus topic, step 2 both descriptions; step 3 has no check |
| Onboarding.StepErrors | src/app/onboarding/page.tsx:100-108 | no message exactly when the step's check passes; step 0 gives the basics message, step 1 the focus message; the strengths (challenges) message is present exactly at step 2 with a failing strengths (challenges) text; at step 2 there is one message per failing text, strengths first and challenges last; step 3 never fails |
| Onboarding.BothDescriptionsFail | src/app/onboarding/page.tsx:104-108 | when both texts fail, the error is the strengths message, one space, then the challenges message |
| Onboarding.WithField | src/app/onboarding/page.tsx:86 | editing a text field never touches the focus list |
| Onboarding.WithFieldOnly | src/app/onboarding/page.tsx:85-88 | an edit gives the named field the new value and leaves every other field as it was |
| Onboarding.RemoveAll | src/app/onboarding/page.tsx:94 | filtering removes every copy of the topic and keeps every other topic as often as before |
| Onboarding.RemoveAllAppend | src/app/onboarding/page.tsx:94 | filtering a concatenation filters each part, so the kept topics keep their relative order |
| Onboarding.RemoveAllAbsent | src/app/onboarding/page.tsx:94 | filtering out an absent topic changes nothing |
| Onboarding.Toggled | src/app/onboarding/page.tsx:93-94 | a present topic is removed everywhere, other topics kept; an absent topic is appended at the end after the unchanged list |
| Onboarding.ToggleTwice | src/app/onboarding/page.tsx:93-95 | toggling an absent topic twice restores the original focus list |
| Onboarding.Payload | src/app/onboarding/page.tsx:125-133 | name, strengths and challenges are sent trimmed; role, experience and focus verbatim; `onboarded` is true |
| Onboarding.Wizard.constructor | src/app/onboarding/page.tsx:37-57 | the wizard starts at step 0, with no error and not loading, on the saved draft if there is one and otherwise on the empty form |
| Onboarding.Wizard.Next | src/app/onboarding/page.tsx:100-111 | a failing check keeps the step and sets the error to the failing messages joined by a space; a passing one clears the error and advances by one, capped at 3; the step stays within 0..3 |
| Onboarding.Wizard.Back | src/app/onboarding/page.tsx:113-116 | the error is cleared and the step goes down by one, staying at 0 |
| Onboarding.Wizard.Bind | src/app/onboarding/page.tsx:83-89 | only the named field changes, and the error is cleared |
| Onboarding.Wizard.ToggleFocus | src/app/onboarding/page.tsx:91-98 | the focus list becomes its toggled version, nothing else in the form changes, and the error is cleared |
| Onboarding.Wizard.Submit | src/app/onboarding/page.tsx:118-144 | a thrown lookup or update sets the generic message; no user sets "You are not logged in."; an update error shows its message; only a clean update of the payload navigates to /dashboard; loading always ends false |
| Signup.Checklist | src/app/signup/page.tsx:111-115 | the five checklist rows are all green exactly when the password is valid |
| Signup.ValidatePassword | src/app/signup/page.tsx:16-23 | at least 8 UTF-16 code units, and at least one upper-case letter, lower-case letter, digit and listed symbol |
| Signup.ValidPasswordHasFourChars | src/app/signup/page.tsx:16-23 | the four character classes are disjoint, so a valid password has at least four characters |
| Signup.ValidAfterAppend | src/app/signup/page.tsx:16-23 | appending characters to a valid password never makes it invalid |
| Signup.ShortBmpPasswordInvalid | src/app/signup/page.tsx:17 | seven characters or fewer, none outside the Basic Multilingual Plane, never pass the length test |
| Signup.CleanEmail | src/app/signup/page.tsx:38 | the normalised address is no longer than the input, has no whitespace at either end and no upper-case ASCII letter |
| Signup.CleanEmailIdempotent | src/app/signup/page.tsx:38 | normalising twice equals normalising once |
| Signup.SiteUrl | src/app/signup/page.tsx:37 | an unset or empty `NEXT_PUBLIC_SITE_URL` falls back to the window origin |
| Signup.SignUpPage.constructor | src/app/signup/page.tsx:9-12 | the page starts with empty fields, no error, not loading |
| Signup.SignUpPage.BeginSignUp | src/app/signup/page.tsx:25-44 | while loading nothing changes and no request is made; an invalid password sets the fixed message and makes no request; otherwise the error is cleared, loading is set and the request carries the clean address, the password and the site URL plus /post-login |
| Signup.SignUpPage.FinishSignUp | src/app/signup/page.tsx:46-63 | success or an "already" error goes to /verify-email?email= plus the encoded clean address; any other error leaves the literal "error.message"; a throw sets the generic message; loading ends false |
| Signup.SignUpPage.SubmitTwice | src/app/signup/page.tsx:27 | a second submit during the first one's call makes no request and leaves loading set and the error clear |
| Signup.SignUpPage.HandleSignUp | src/app/signup/page.tsx:25-65 | with no other event during the call: while loading nothing changes; an invalid password sets the fixed message without calling signUp; success or an "already" error goes to /verify-email?email= plus the encoded clean address; any other error leaves the literal "error.message"; a throw sets the generic message; loading ends false after the call |
| PostLogin.Decide | src/app/post-login/page.tsx:26-59 | /login exactly without a user; /verify-email exactly for an unconfirmed user; /dashboard exactly for a confirmed user with no select error and a row whose `onboarded` is true; /onboarding otherwise; one insert of `{id, email, onboarded: false}` exactly when the row is missing, and that goes to /onboarding |
| PostLogin.NoSelectBeforeConfirmation | src/app/post-login/page.tsx:27-41 | without a user or a confirmed e-mail the outcome does not depend on the profile store, so it is never read |
| PostLogin.SelectErrorGoesToOnboarding | src/app/post-login/page.tsx:44-46 | a select error sends the user to /onboarding without inserting |

## Left out

- The system prompt text, `JSON.stringify` of the payload, and the chat message layout (route.ts:40-66) are left out. The model keeps the data of the request: model name, temperature 0.2, the profile, and the guidance (25, true).
- `JSON.parse`, `encodeURIComponent` and Number::toString are function parameters, not definitions. The JSON grammar and RFC 3986 percent-encoding are not modelled.
- JSON numbers are reals. IEEE-754 rounding, `-0` and `NaN` are not modelled.
- The framework's answer to an escaping exception is the single value `Unhandled`. The status and body Next.js would send are not modelled.
- Property access on non-objects (`Prop`) is `undefined` for every key. This is exact for the keys the route reads (`recommendations`, `difficulty`, `tagSlug`). It is not exact for `length` or array indices, which the route never reads.
- Objects are modelled as sequences of members in property order. JavaScript's rule that integer-like keys come first is assumed to be already reflected in the parser's output. The special key `__proto__` is not modelled.
- Text.Lower: maps only the ASCII letters A-Z. JavaScript's `toLowerCase` also lower-cases other Unicode letters, and a few of them expand to two characters.
- Signup.CleanEmail: inherits Lower's ASCII-only case mapping.
- Strings are sequences of Unicode code points. `.length` is modelled in UTF-16 code units (`Utf16Length`). The brace positions found by `indexOf`/`lastIndexOf` are code-point positions. This selects the same span, because `{` and `}` are single code units.
- `window.alert` in the sign-up error path (signup/page.tsx:52) is left out: it is a browser dialog with no effect on state.
- Browser storage is left out. This covers the onboarding draft read and write (onboarding/page.tsx:49-55, 69-74) and its removal after submit (line 137). The wizard's constructor takes the saved draft, already parsed, as an optional parameter.
- The `useEffect` redirect guard of the onboarding page (lines 59-67) is left out. It runs asynchronously, under the framework's scheduling.
- React state is updated in sequence in the model. The framework batches the setters of one handler and applies them before the next event, which gives the same result.
- Rendering, styling, the stepper, the password visibility toggle and disabled buttons are left out. So are the other pages (home, dashboard, recommendations page, login, verify-email), the middleware, the Supabase client setup, the LeetCode GraphQL proxy and the random-number endpoint. None of them decides anything the model covers.
- Recommendations.AnnotateAll: its contract states length and when it throws. That entry k is item k annotated is stated by `MapItems` and `WithLinksAnnotatesEach`.
- JsonValue.Spread: a string is spread by code point, one entry per character. JavaScript spreads it by UTF-16 code unit, so a character above U+FFFF gives two entries holding its two surrogates. Lone surrogates are not characters of a Dafny string, so the model cannot hold those entries.
- JsonValue.Lookup: returns the first member with the key, while JavaScript keeps the last of repeated keys. `JSON.parse` never yields an object with a repeated key, so the route never meets the difference.
- Onboarding.Wizard.Submit: runs to completion as one step. The source has no loading guard, and its payload is built from the form of the render that started it, which is what the model uses. An edit arriving during the awaited calls is not modelled.
