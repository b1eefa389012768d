# Contacts access layer of a contact-book single-page client

This project models the HTTP access layer of a contact-book web client.
That layer is `src/services/contacts.service.js`. It is made of `efetch` and
the seven functions that `makeContactsService` returns:

- `fetchContacts`
- `searchContacts`
- `fetchContact`
- `createContact`
- `updateContact`
- `deleteContact`
- `deleteAllContacts`

The source is pure apart from the awaited HTTP call, so the model is made of
datatypes, functions and lemmas. The HTTP call is not made. How it settles is
an input, `Reply`: either `Rejected(error)` or `Resolved(status, data)`. Each
service function returns a `Call`, which holds the request handed to the HTTP
client (or none) and how the function's promise settles (`Ok` or `Err`).

Files:

- `text.dfy` (module `Text`): decimal text of integers and its parser,
  unique splitting at a separator, and `String.prototype.trim` over the
  ECMAScript white-space set.
- `js.dfy` (module `Js`): JavaScript values (`Undefined | Null | Bool | Num |
  Str | Arr | Obj`). It defines truthiness, `||`, `??`, property reads that
  throw `TypeError` on null or undefined, object spread (strings and arrays
  spread their indices), and template-literal text.
- `contacts_service.dfy` (module `ContactsService`): `efetch`, the list and
  search shaping shared by both reads, the URL builders and the seven
  service functions.
- `contacts_properties.dfy` (module `ContactsProperties`): lemmas that relate
  several calls or inputs.

The placeholder avatar (`DEFAULT_AVATAR`) and `encodeURIComponent` are
supplied from outside in `Env`. The constants module is not part of this
model, and the encoder is treated as an uninterpreted function.

Behaviours of the code that are easy to miss:

- Listing and searching reject with a `TypeError` on a 2xx reply whose
  `data.contact` array holds a null or undefined element, because the map
  callback reads `contact.avatar` (lines 41-44 and 63-66).
  `ListFailsOnlyOnMissingElement` states this exactly.
- `fetchContact` keeps a stored `""` avatar, because it uses `??` (line 77)
  where the list path uses `||`. `AvatarDefaultingDiffers` and
  `EmptyAvatarExample` state this.
- For a non-2xx status with a null or undefined body, `efetch` throws a
  `TypeError` while reading `message` (line 20), not the "Request failed"
  error.
- For a non-2xx status whose `message` is an object with its own
  `toString` key (or an array holding one), interpolating it at line 20
  throws a `TypeError`, which `efetch` re-throws in place of the "Request
  failed" error. `Js.Printable` says which values convert.

## Model

| member | source | states |
|---|---|---|
| ContactsService.Efetch | src/services/contacts.service.js:11-28 | a rejected call is re-thrown unchanged; the result is fulfilled exactly when the status is in [200, 300) and the body is not null/undefined, and then it is `body.data`; any other status with a body throws an Error carrying the failure message, or the TypeError that interpolating `body.message` throws when it cannot be converted to text; a null/undefined body throws a TypeError |
| ContactsService.FailureMessage | src/services/contacts.service.js:19-21 | building the message succeeds exactly when the server's message can be converted to text; it is then "Request failed with status ", the status in decimal, ": ", then the server's message when it is truthy and "No detail" when it is falsy; otherwise it throws the conversion TypeError |
| ContactsProperties.FailureMessageExample | src/services/contacts.service.js:18-22 | a 404 with message "Not found" throws "Request failed with status 404: Not found", and one with an empty message throws "Request failed with status 404: No detail" |
| ContactsProperties.UnprintableMessageThrows | src/services/contacts.service.js:20 | a 500 whose message is an object with its own `toString` key throws the conversion TypeError, not the "Request failed" error |
| ContactsProperties.FailureMessageDeterminesStatus | src/services/contacts.service.js:20 | two failure messages that were built and are equal come from the same status and the same detail text |
| Text.IntTextInjective | src/services/contacts.service.js:20 | the decimal text interpolated for a status determines the status |
| Text.ParseNatText | src/services/contacts.service.js:34 | reading back the decimal text of a page or limit gives the number |
| Text.NatText | src/services/contacts.service.js:34 | an interpolated page or limit is a non-empty run of digits without a leading zero |
| ContactsService.ListAvatar | src/services/contacts.service.js:41-44 | the mapped contact keeps a truthy avatar, gets the placeholder for a falsy one, and has every other property of the input |
| ContactsService.NormalizeContact | src/services/contacts.service.js:41-44 | the `.map` callback throws a TypeError reading `avatar` exactly when the element is null/undefined, and otherwise gives the element with its avatar defaulted by `||` |
| ContactsService.HasContactArray | src/services/contacts.service.js:37 | the guard passes exactly when the payload is truthy and its `contact` is an array (an array is always truthy, so `!data.contact` adds nothing once `Array.isArray` holds) |
| ContactsService.MapContacts | src/services/contacts.service.js:63-66 | mapping fails with a TypeError reading `avatar` exactly when some element is null/undefined; otherwise it keeps length and order, and element i is input i with its avatar defaulted |
| ContactsService.NormalizePage | src/services/contacts.service.js:37-48 | a falsy payload, or a `contact` that is falsy or not an array, gives exactly `{contact: [], metadata: {lastPage: 1}}`; otherwise the contacts are mapped element-wise and the metadata is the server's when truthy, else `{lastPage: 1}` |
| ContactsProperties.ListFailsOnlyOnMissingElement | src/services/contacts.service.js:36-44 | on a 2xx reply with a body, listing fails only when the payload's contact array holds a null/undefined element, and a payload without a contact array gives the empty page |
| ContactsProperties.ListedAvatarsTruthy | src/services/contacts.service.js:41-44 | with a truthy placeholder, no listed contact has a falsy avatar, and every property other than `avatar` is the input's |
| ContactsService.LimitOrDefault | src/services/contacts.service.js:33 | computes the limit in effect: the caller's limit, or 10 when the argument is undefined |
| ContactsService.ListUrl | src/services/contacts.service.js:34 | computes `/api/v1/contacts?page=<page>&limit=<limit>` with both numbers in decimal |
| ContactsService.FetchContacts | src/services/contacts.service.js:33-49 | issues one GET of `/api/v1/contacts?page=<p>&limit=<l>` with limit 10 when omitted; a failed `efetch` propagates; a fulfilled one is shaped by the list normalisation |
| ContactsProperties.ListUrlInjective | src/services/contacts.service.js:34 | different (page, limit) pairs give different list URLs |
| ContactsProperties.ListUrlDistinctFromOthers | src/services/contacts.service.js:31-34 | the list URL is never a search URL or a single contact's URL |
| ContactsService.IsSearchable | src/services/contacts.service.js:52 | the guard lets a term through exactly when it is a string that holds a character other than white space |
| ContactsService.SearchUrl | src/services/contacts.service.js:56 | computes `/api/v1/contacts/search?page=<page>&limit=<limit>&q=<query>` with both numbers in decimal and the encoded query appended as is |
| ContactsService.SearchContacts | src/services/contacts.service.js:51-71 | makes no request and resolves with the empty page exactly when the term is not a string or is only white space; otherwise one GET of `/api/v1/contacts/search?page=<p>&limit=<l>&q=<encode(trim(term))>`, shaped like the list |
| ContactsProperties.SearchableIffTrimmed | src/services/contacts.service.js:52 | a string term passes the guard exactly when its trimmed form is non-empty |
| ContactsProperties.BlankSearchMakesNoRequest | src/services/contacts.service.js:52-55 | a non-string or blank term gives no request and the empty page, whatever the HTTP call would have done |
| ContactsProperties.SearchDependsOnTrim | src/services/contacts.service.js:52-56 | two string terms with the same trimmed form make the same search |
| ContactsProperties.SearchIgnoresPadding | src/services/contacts.service.js:56 | white space around a term changes neither the request nor the outcome |
| ContactsProperties.SearchUrlInjective | src/services/contacts.service.js:56 | a search URL determines its page, its limit and the encoded query |
| ContactsProperties.SearchShapesLikeList | src/services/contacts.service.js:58-70 | a search that is made settles exactly as listing does on the same reply |
| Text.SkipWhite | src/services/contacts.service.js:52 | the index returned is the first one at or after the start that holds a character other than white space, or the length when there is none |
| Text.SkipWhiteBack | src/services/contacts.service.js:52 | the index returned is the smallest one from which the rest up to the bound is all white space |
| Text.Trim | src/services/contacts.service.js:52 | the trimmed term is empty exactly when the term is all white space, and is never longer than the term |
| Text.TrimBetween | src/services/contacts.service.js:56 | when the text of a string starts before its end, the trimmed form is the slice from its first to just past its last non-white character, and it starts and ends with a non-white character |
| Text.TrimPadding | src/services/contacts.service.js:56 | white space added around a string does not change its trimmed form |
| Js.Or | src/services/contacts.service.js:43 | computes JavaScript's logical or of `a` and `b`: `a` when it is truthy, otherwise `b` |
| Js.Coalesce | src/services/contacts.service.js:77 | computes `a ?? b`: `b` when `a` is null or undefined, otherwise `a` |
| Js.TemplateText | src/services/contacts.service.js:20 | `${v}` succeeds exactly when `v` is printable, and otherwise throws the conversion TypeError; it renders "undefined", "null", "true"/"false", integers in decimal, strings as they are, arrays joined by commas with null/undefined elements empty, and objects without an own `toString` as "[object Object]" |
| Js.Get | src/services/contacts.service.js:76-77 | a property read throws a TypeError naming the property exactly when the object is null/undefined, and otherwise gives the own property or undefined |
| Js.SpreadWith | src/services/contacts.service.js:75-78 | `{...v, k: x}` is an object whose `k` is `x` and whose every other property is that of `v` |
| ContactsService.SingleAvatar | src/services/contacts.service.js:75-78 | only a null/undefined avatar is replaced by the placeholder; every other avatar and property is kept |
| ContactsService.ContactUrl | src/services/contacts.service.js:74 | computes `/api/v1/contacts/<id>` |
| ContactsService.FetchContact | src/services/contacts.service.js:73-79 | issues one GET of `/api/v1/contacts/<id>`; a failed `efetch` propagates; a null/undefined payload or `contact` throws a TypeError; otherwise resolves with the contact, avatar defaulted by `??` |
| ContactsProperties.AvatarDefaultingDiffers | src/services/contacts.service.js:77 | with a truthy placeholder, the list and single reads give different avatars exactly when the stored avatar is falsy but not null/undefined |
| ContactsProperties.EmptyAvatarExample | src/services/contacts.service.js:73-78 | a contact stored with avatar `""` is listed with the placeholder but read alone with `""` |
| ContactsProperties.ListExample | src/services/contacts.service.js:33-48 | listing page 1 with limit 10 against one avatar-less contact and `{lastPage: 3}` requests `/api/v1/contacts?page=1&limit=10` and yields that contact with the placeholder avatar and the server's metadata |
| ContactsService.CreateContact | src/services/contacts.service.js:81-90 | POSTs the form to `/api/v1/contacts` as multipart data and settles exactly as `efetch` |
| ContactsService.UpdateContact | src/services/contacts.service.js:92-100 | PUTs the form to `/api/v1/contacts/<id>` as multipart data and settles exactly as `efetch` |
| ContactsService.DeleteContact | src/services/contacts.service.js:102-115 | DELETEs `/api/v1/contacts/<id>`; its catch re-throws, so it settles exactly as `efetch` |
| ContactsService.DeleteAllContacts | src/services/contacts.service.js:117-121 | DELETEs `/api/v1/contacts` and settles exactly as `efetch` |
| ContactsProperties.WritesSurfaceFailures | src/services/contacts.service.js:24-27 | no write resolves when the call rejects or the status is not 2xx, and a rejection reaches the caller as the same error |

## Left out

- The HTTP client call, HTTP semantics and promise scheduling. How the call settles is the `Reply` input. With the client's default status validation a non-2xx status would arrive as a rejection; the model passes any status to `efetch`'s own check.
- Multipart/FormData encoding of the create and update bodies. The form is an opaque `Value` placed in the request.
- The `console` diagnostics (lines 17, 25, 35, 38, 53, 57, 60, 82, 104, 109, 112). They do not affect results.
- `encodeURIComponent`: an uninterpreted `Env` function applied to the trimmed term.
- `DEFAULT_AVATAR`: its value lives in a constants module that is not part of this model. It is the `Env` parameter `defaultAvatar`, and the lemmas that need it truthy say so.
- Js.TemplateText, ContactsService.ListUrl, ContactsService.SearchUrl: numbers are integers rendered in plain decimal. Fractional JSON numbers, and the exponent form JavaScript uses from 10^21 up (a page of 10^21 is "1e+21" in the URL), are not modelled.
- FetchContacts, SearchContacts: `page` and `limit` are non-negative integers. Callers pass page numbers and limits, and the URL lemmas (`ListUrlInjective`, `SearchUrlInjective`) rely on their canonical decimal text. Other arguments, such as an undefined `page` (which would put "undefined" in the URL), a negative or fractional number, or a string, are not accepted by the model. `limit` is `None` for an undefined argument, which takes the default of 10.
- Js.Printable: values are decoded JSON, so an own `toString` or `valueOf` is never callable and `Symbol.toPrimitive` cannot occur. Objects that define those as functions are not modelled.
- Js.Props, Js.Chars, SearchContacts: strings are sequences of Unicode scalar values, not UTF-16 code units. A character outside the Basic Multilingual Plane spreads to one index key where JavaScript gives two (one per surrogate half). A term holding a lone surrogate cannot be represented, so the `URIError` that `encodeURIComponent` throws on one, which would reject `searchContacts`, is not modelled.
- FetchContact, UpdateContact, DeleteContact: the id is the text already interpolated into the URL.
- Property order of objects (a `map` has none) and non-enumerable properties such as `length`. The code reads neither.
- `src/router/index.js`, `src/main.js` and `vite.config.js`: route matching, cache and retry settings, and build configuration belong to external libraries.
