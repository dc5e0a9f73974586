# Digital business cards: validation and ownership-checked card store

This project models the core of a digital business-card web application
in Dafny and proves properties of that model. A signed-in user creates
"cards" (name, position, company, email, optional phone, website and logo,
a theme, and a list of social links). Each card can be listed, updated and
deleted by its owner only. Every visit of a card's public page is recorded
as a "view".

The model has five modules:

- `Zod` (`zod.dfy`): the part of the validation library the schemas use.
  It holds an untyped JSON value, issues with their messages, parse
  results and the library's default type-error messages. It also holds a
  `Checks` value carrying the library's `.email()` and `.url()`
  predicates, which the model leaves uninterpreted.
- `Text` (`text.dfy`): `trim`, `toLowerCase`, `startsWith` and the
  `replace(/[<>]/g, '')` filter, restricted to ASCII.
- `ZodSchemas` (`zod_schemas.dfy`): `sanitizeUrl`, `sanitizeText`, the
  social-link schema, the card creation schema, its `.partial()` update
  form and the view-tracking schema. Each schema is a function from a JSON
  body to a parse result. Issues are listed in the order the schema
  declares its keys.
- `Forms` (`forms.dfy`): `userSchema` and `getZodErrorMessage`.
- `CardStore` (`card_store.dfy`): the class `Store`. Its fields are two
  maps: users by email and cards by id. A card holds its owner's id, its
  validated fields, its social links and its views. The methods are the
  handlers `POST`, `GET`, `PUT` and `DELETE` of `/api/cards` and `POST` of
  `/api/track`. Each handler runs, in this order, the checks it needs
  among 401, 400, 404 for an unknown user, 500 for a non-string id (`PUT`
  only), 404 for an unknown card and 403. `POST /api/cards` stops after
  the user check, and the track handler has neither a 401 nor a 403. A
  `PUT` that carries links writes twice: it deletes the card's links, then
  updates the card with the new ones. Callers
  supply the session email (or none), the id the database would generate
  and the current time as parameters.

The object invariant `Store.Valid()` says three things. User ids are
unique. Every card belongs to an existing user. Every view of a card
refers to that card. Every handler preserves it.

Behaviour of the code worth knowing:

- The validation library's behaviour modelled is that of zod 3: the
  default messages ("Required", "Expected string, received …"), the
  `err.errors` list the handlers read, and the rule that `.partial()`
  wraps each key in `.optional()`, so that an absent key never reaches the
  key's `.default()`.

- A successful `POST /api/cards` answers 200, the default of
  `NextResponse.json`.
- The update schema does not apply the creation defaults. `.partial()`
  wraps each key so that an absent key stays absent. So an update without
  `theme` or `socialLinks` leaves them untouched rather than resetting
  them to `default` and `[]`.
- The length bounds on name, position and company apply to the raw
  string, before trimming. A name of spaces only is accepted and stored as
  the empty string.
- A `PUT` body whose `id` is missing or is not a string makes the card
  lookup throw. That call answers 500, after the user check and before the
  card check.

## Model

| member | source | states |
|---|---|---|
| Text.Trim | src/lib/zodSchemas.ts:6 | the trimmed string has no whitespace at either end and is no longer than the input; what it keeps is stated by `Text.TrimExact` |
| Text.TrimExact | src/lib/zodSchemas.ts:6 | the trimmed string is exactly the slice `s[a..b]` of the input, and everything before `a` and after `b` is whitespace |
| Text.TrimChars | src/lib/zodSchemas.ts:6 | every character of the trimmed string is a character of the input |
| Text.TrimAllSpace | src/lib/zodSchemas.ts:18 | a string made only of whitespace trims to the empty string |
| Text.StripBrackets | src/lib/zodSchemas.ts:18 | the result has no `<` or `>`, is no longer than the input, and equals the input when the input has no brackets; what it keeps is stated by the two lemmas below |
| Text.StripBracketsChars | src/lib/zodSchemas.ts:18 | every character left by the bracket filter is a character of the input |
| Text.StripBracketsChar | src/lib/zodSchemas.ts:18 | on one character the filter drops a `<` or `>` and keeps anything else |
| Text.StripBracketsConcat | src/lib/zodSchemas.ts:18 | the filter distributes over concatenation, so every non-bracket character is kept, in order |
| ZodSchemas.SanitizeUrl | src/lib/zodSchemas.ts:4-14 | the result always starts with `http://` or `https://` |
| ZodSchemas.SanitizeUrlNormalForm | src/lib/zodSchemas.ts:6-10 | the result is already trimmed and has no upper-case letter |
| ZodSchemas.SanitizeUrlPrefix | src/lib/zodSchemas.ts:7-10 | an input whose trimmed, lower-cased form already starts with `http://` or `https://` is returned as exactly that form, with no double prefix; any other input gets exactly one `https://` in front |
| ZodSchemas.SanitizeUrlIdempotent | src/lib/zodSchemas.ts:6-10 | sanitising a sanitised URL returns it unchanged |
| ZodSchemas.SanitizeText | src/lib/zodSchemas.ts:17-19 | the result has no `<` or `>` and is no longer than the input |
| ZodSchemas.SanitizeTextChars | src/lib/zodSchemas.ts:17-19 | the sanitiser only removes characters: every character of the result is one of the input's |
| ZodSchemas.SanitizeTextNotIdempotent | src/lib/zodSchemas.ts:18 | `"< a"` sanitises to `" a"` and then to `"a"`: trimming before bracket removal makes the sanitiser non-idempotent |
| ZodSchemas.SanitizeTextInnerBracket | src/lib/zodSchemas.ts:18 | brackets inside the text are dropped and the rest is kept: `"a<b"` sanitises to `"ab"` |
| ZodSchemas.SanitizeTextWithoutBrackets | src/lib/zodSchemas.ts:17-19 | on text without angle brackets the sanitiser is `trim`, and applying it twice gives the same as once |
| ZodSchemas.DigitPairsExact | src/lib/zodSchemas.ts:49 | `(\d{2}){n}` matches a whole string exactly when the string has 2n characters, all digits |
| ZodSchemas.PhonePatternExact | src/lib/zodSchemas.ts:49 | the phone pattern matches exactly the 12-character strings `+33`, a digit 1-9, then 8 digits, and the 10-character strings `0`, a digit 1-9, then 8 digits |
| ZodSchemas.PhoneUnchangedBySanitizer | src/lib/zodSchemas.ts:48-51 | a phone that matches the pattern passes through `sanitizeText` unchanged |
| ZodSchemas.PhoneTransform | src/lib/zodSchemas.ts:51 | the phone transform returns a matching phone as it was given |
| ZodSchemas.PhoneField | src/lib/zodSchemas.ts:48-51 | an absent phone yields absent; a present phone is accepted iff it is a string matching the pattern, and is then kept as given; a non-matching string is reported with the phone message |
| ZodSchemas.Optional | src/lib/zodSchemas.ts:52-55 | an absent key is accepted as absent without running the inner schema; a present key gets the inner schema's verdict, value and issues |
| ZodSchemas.BoundedText | src/lib/zodSchemas.ts:33-44 | accepted iff the raw value is a string of 1 to 100 characters, and then stored sanitised; an empty string gets the "required" message, a longer one the "too long" message, a non-string a type issue |
| ZodSchemas.BlankNameStoredEmpty | src/lib/zodSchemas.ts:33-36 | a name of 1 to 100 whitespace characters is accepted and stored as `""` |
| ZodSchemas.PlatformField | src/lib/zodSchemas.ts:23-25 | a platform is accepted iff it is a non-empty string, and is stored sanitised |
| ZodSchemas.UrlField | src/lib/zodSchemas.ts:26-28 | a URL is accepted iff it is a string the URL check accepts; it is then stored sanitised, with a web scheme |
| ZodSchemas.EmailField | src/lib/zodSchemas.ts:45-47 | an email is accepted iff it is a string the email check accepts, and is stored sanitised |
| ZodSchemas.LogoField | src/lib/zodSchemas.ts:56 | any logo value is accepted; it is absent exactly when the key is absent, and is kept as given otherwise |
| ZodSchemas.ThemeEnum | src/lib/zodSchemas.ts:57 | a theme is accepted iff it is one of the strings `default`, `dark`, `light`, and the result names that string |
| ZodSchemas.ThemeField | src/lib/zodSchemas.ts:57 | an absent theme defaults to `default`; a present one goes through the enum |
| ZodSchemas.SocialLinkItem | src/lib/zodSchemas.ts:22-29 | a link is accepted iff it is an object whose platform and url are accepted; it then holds the sanitised platform and the sanitised url; a failing platform's issue comes first, then a failing url's; a non-object gets the object type issue |
| Zod.Collect | src/lib/zodSchemas.ts:58 | an array's elements are accepted iff each is, with the values in order; otherwise the first issue is that of the first failing element |
| ZodSchemas.SocialLinkList | src/lib/zodSchemas.ts:58 | a list is accepted iff every item is; it then has one validated link per item, in order; otherwise the first issue is that of the first failing item |
| ZodSchemas.SocialLinksArray | src/lib/zodSchemas.ts:58 | on an array the result is the items' result, success or failure; anything else gets the array type issue |
| ZodSchemas.LinkPlatformReportedFirst | src/lib/zodSchemas.ts:22-24 | a links array whose first item has an empty platform is rejected with "La plateforme est requise" first, whatever its url holds |
| ZodSchemas.SocialLinksField | src/lib/zodSchemas.ts:58 | absent social links default to `[]`; present ones go through the array schema |
| ZodSchemas.ValidatedLinksAreClean | src/lib/zodSchemas.ts:22-29 | every validated link has a url with a web scheme and a platform without angle brackets |
| ZodSchemas.CreateCard | src/lib/zodSchemas.ts:32-59 | a failed parse reports at least one issue, so the handlers' `errors[0]` exists; only an object body is accepted; its verdict, values and first issue are stated by the lemmas below |
| ZodSchemas.UpdateCard | src/lib/zodSchemas.ts:62 | a failed parse reports at least one issue; only an object body is accepted; its verdict, values and first issue are stated by the lemmas below |
| ZodSchemas.TrackView | src/lib/zodSchemas.ts:65-67 | accepted iff the body is an object whose `cardId` is a non-empty string, and the result is that id; an empty `cardId` gets the "ID de carte requis" message |
| ZodSchemas.CreateTextBounds | src/lib/zodSchemas.ts:33-44 | a created card's name, position and company come from raw strings of 1 to 100 characters, and are stored sanitised |
| ZodSchemas.CreatePhone | src/lib/zodSchemas.ts:48-51 | a created card's phone is absent when the key is absent; otherwise it is the given string, in one of the two exact formats |
| ZodSchemas.CreateDefaults | src/lib/zodSchemas.ts:52-58 | creation gives theme `default` when absent and otherwise the given enum value, and `[]` links when absent; a website is absent iff its key is, and a present one is stored as `sanitizeUrl` of the raw string, with a scheme |
| ZodSchemas.CreateValues | src/lib/zodSchemas.ts:45-58 | a created card stores the email sanitised and the logo as given (absent iff its key is); present social links are the array schema's validated links |
| ZodSchemas.CreateAccepts | src/lib/zodSchemas.ts:32-59 | a body is accepted for creation exactly when it is an object and every declared key passes its own schema, an absent website counting as passing |
| ZodSchemas.UnknownKeyIgnored | src/app/api/cards/route.ts:32-41 | a key the schemas do not declare, such as a client-sent `userId`, changes neither the creation nor the update result |
| ZodSchemas.UpdateAbsentKeys | src/lib/zodSchemas.ts:62 | in an accepted update, each field is absent exactly when its key is absent; no default is applied |
| ZodSchemas.UpdatePresentKeys | src/lib/zodSchemas.ts:62 | in an accepted update, each present key is written with the value creation would store: sanitised text, the phone as given, the sanitised URL, the logo as given, the enum value, the validated links |
| ZodSchemas.UpdateIsPartialCreate | src/lib/zodSchemas.ts:62 | on a body that gives every key, the update schema gives the same verdict, issues and values as the creation schema |
| ZodSchemas.EmptyUpdate | src/lib/zodSchemas.ts:62 | a body with none of the card's keys is accepted as the empty patch |
| ZodSchemas.UpdateAccepts | src/lib/zodSchemas.ts:32-62 | an update body is accepted exactly when it is an object and every key it gives passes that key's creation check; absent keys are not checked, so any subset of the keys may be given |
| ZodSchemas.UpdateCompanyOnly | src/lib/zodSchemas.ts:41-44 | the body `{company: "X"}` is accepted as the patch that sets only `company` to `"X"` |
| ZodSchemas.CreateFirstIssue | src/lib/zodSchemas.ts:32-59 | the first issue of a rejected creation body is the first issue of the first key, in declaration order name, position, company, email, phone, website, theme, socialLinks, whose schema fails |
| ZodSchemas.UpdateFirstIssue | src/lib/zodSchemas.ts:62 | the first issue of a rejected update body is the first issue of the first key, in the same order, that is given and fails |
| ZodSchemas.CreateNameReportedFirst | src/lib/zodSchemas.ts:33-34 | a body with an empty name is rejected with "Le nom est requis" as its first issue, whatever its other keys hold |
| Forms.ParseUser | src/lib/forms.ts:4-7 | accepted iff the name is a string of at least 2 characters and the email passes the email check; values are kept as given; a short name is reported first with its message |
| Forms.UserEmailRejected | src/lib/forms.ts:6 | an email the check rejects makes the form fail with the email message |
| Forms.GetZodErrorMessage | src/lib/forms.ts:12-14 | the first error's message when there is one and it is non-empty; `Erreur de validation` when the list is empty or the first message is `''`; never empty |
| Forms.UserFormMessage | src/lib/forms.ts:4-14 | for a failed user form, the message shown is the first issue's |
| CardStore.CardKey | src/app/api/cards/route.ts:125-127 | the card lookup gets a key exactly when the body's `id` is a string, and the key is that string |
| CardStore.Authorize | src/app/api/cards/route.ts:114-141 | access is granted iff the user exists, the card exists and its `userId` is the user's id; "user missing" iff no user has the email; "not owner" only for an existing card with another owner |
| CardStore.Denial | src/app/api/cards/route.ts:118-141 | a missing user answers 404 "Utilisateur non trouvé", a non-string id 500 "Erreur serveur", a missing card 404 "Carte non trouvée", another owner 403 "Non autorisé"; 403 and 404 arise only in those cases |
| CardStore.PatchTouchesOnlyPresentFields | src/app/api/cards/route.ts:143-164 | an update writes exactly the fields present in the patch; a present link list, even `[]`, replaces the old one; the owner and views never change |
| CardStore.EmptyBodyUpdatesNothing | src/app/api/cards/route.ts:151-160 | an update body with no card keys leaves the card as it was |
| CardStore.InsertNewestFirst | src/app/api/cards/route.ts:82-86 | inserting a view into a newest-first list keeps it newest first and adds exactly that view |
| CardStore.SortNewestFirst | src/app/api/cards/route.ts:82-86 | the result is ordered by `createdAt` descending and is a permutation of the views |
| CardStore.ViewsAccumulate | src/app/api/track/route.ts:25-33 | N successful tracking calls append exactly those N views in call order and change nothing else about the card |
| CardStore.OrElse | src/app/api/track/route.ts:28-31 | `a \|\| b` on an optional header: a non-empty `a` is kept, a `null` or `''` one falls through to `b` |
| CardStore.ClientIp | src/app/api/track/route.ts:28-30 | the IP is a non-empty `x-forwarded-for`, else a non-empty `x-real-ip`, else absent; it is never `''` |
| CardStore.UserAgent | src/app/api/track/route.ts:31 | the user agent is present iff the `user-agent` header is non-empty, and is then that header |
| CardStore.Store.Post | src/app/api/cards/route.ts:8-62 | 401 without a session email; 400 with the first issue's message on a schema failure; 404 for an unknown user; otherwise exactly one new card under the fresh id, owned by the session user, with the validated fields and exactly the validated links and no views; every failure leaves the store unchanged |
| CardStore.Store.List | src/app/api/cards/route.ts:64-98 | 401 without a session email; otherwise exactly the cards whose owner has the session email, each with its fields and links, and its views as a newest-first permutation |
| CardStore.Store.Put | src/app/api/cards/route.ts:100-181 | checks in order 401, 400 (first issue), 404 user, 500 for a non-string id, 404 card, 403; every failure leaves the store unchanged; success changes only that card, to the card with the patch applied |
| CardStore.Store.Update | src/app/api/cards/route.ts:143-164 | deleting the links and then updating with a nested create yields the patched card, and no other card changes |
| CardStore.Store.Delete | src/app/api/cards/route.ts:183-244 | 401 without a session email; 400 for a missing or empty `id`; then the same 404 user, 404 card and 403 checks; success removes exactly that card, with its links and views; every failure leaves the store unchanged |
| CardStore.Store.Track | src/app/api/track/route.ts:6-49 | no session is consulted; 400 with the first issue's message on a schema failure; 404 for an unknown card; otherwise exactly one new view is appended to that card, with the client IP and user agent from the headers, and no other card changes |

## Left out

- Parsing the request text as JSON is not modelled: a body that is not JSON makes `request.json()` throw, and the handler answers 500. The model starts from the parsed value.
- The `PUT` body is modelled as a JSON object. Destructuring `null` throws. A number or boolean gives an empty object, and a string or an array gives only index keys, which the schema strips, so such a body acts as an empty update. All of these are left out.
- The `catch` branch of `sanitizeUrl` is not modelled. It is unreachable on the strings the schemas pass it.
- `trim` and `toLowerCase` are modelled on ASCII only: six ASCII whitespace characters and the letters A-Z. Length bounds count Unicode characters, not UTF-16 code units.
- The library's `.email()` and `.url()` checks are parameters of the schemas (`Zod.Checks`). Nothing is assumed about which raw strings they accept.
- Type errors use the library's default message text. JSON numbers carry an integer in place of a floating-point value; no schema reads it.
- Database failures other than a non-string `PUT` id are not modelled. These are connection errors and constraint violations, which would answer 500. The card id, the view id and the time are parameters. `Store.Post` requires the new card id to be unused; the database generates it.
- The logo column's type is not shown. The model stores whatever `z.any()` passes.
- Social-link rows' own ids and back-references are not modelled: the links are a list inside the card. Views keep their `cardId`.
- Concurrency is not modelled: handlers run one at a time. That leaves out the non-atomic delete-then-create of social links.
- Header names are looked up in lower case, and a header has one value.
- The public `GET`/`DELETE /api/cards/{id}` route, file upload, authentication wiring, QR codes and the pages are not part of this model.
- CardStore.Store.List: returns the cards as a map keyed by id. The order in which the database lists the cards is not modelled, nor the order of views with equal `createdAt`.
- The order in which the database returns a card's social links is not modelled: the queries that include them name no order. `Store.Post`, `Store.Put` and `Store.List` keep the links in the order the body gave.
