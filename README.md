# Chat-button backend, modelled in Dafny

The backend stores users and their floating chat buttons in one JSON
document, `{users, buttons}`. Owners create, list, edit and delete their
buttons through authenticated routes. Any page can embed a button through a
public script route. That route serves JavaScript which draws a round link
in a chosen corner of the page. The link points either to a URL or to a
`wa.me` WhatsApp chat derived from an area code (DDD) and a phone number.

The model covers three parts:

- **`Store`** (database/db.js): the document becomes a `Database` class. Its
  fields `users` and `buttons` are reassigned by the mutators `CreateUser`,
  `UpdateUser`, `CreateButton`, `UpdateButton` and `DeleteButton`. The
  lookups `FindUserBy…`, `GetButton` and `AllButtons` are functions that
  read it. There is an invariant `Valid()` (ids are unique in both lists),
  which every mutator preserves. The positional parameter mappings of
  `dbRun` are `RegisterInsert`, `GoogleInsert`, `ButtonInsert` and
  `ButtonUpdate`.
- **`Buttons`** (routes/buttons.js): the express-validator chains become
  `CreateErrors` and `UpdateErrors`, with `trim()` written out as `Trim`.
  The derivation of the WhatsApp link becomes `WhatsAppLink` and
  `FinalUrl`. The handlers become `List`, `Show` and the methods `Create`,
  `Update` and `Delete`, which call the store methods in the handlers'
  order.
- **`Script`** (routes/script.js): the position table becomes `PositionMap`
  and `Corner`, the four CSS fragments `PositionStyle`, and the template
  literal `ScriptText`. `ServeScript` is the route itself.

The supporting modules are:

- `Values`: `Option`, `Result`, and JavaScript truthiness, `x || null` and
  `x || fallback`.
- `Sequences`: `find`, `findIndex`, `filter`, `Math.max` and a stable
  descending sort.
- `Text`: decimal rendering of integers and "occurs in".
- `Http`: the responses.

Some parameters replace what the model cannot run. A clock reading is an
integer parameter `now`. The caller's id, which the authentication
middleware puts in `req.user.id`, is an integer parameter. Route ids are
integers, so `parseInt` happens before the model starts.

Where the code and its written description differ, the model follows the
code. In particular:

- The trimmed name is what gets stored, because the `trim()` sanitizer
  rewrites `req.body.name`.
- A URL button keeps whatever `whatsapp_ddd` and `whatsapp_number` were
  sent, run through `|| null`.
- The DDD and number stored for a WhatsApp button are the raw ones, not
  the digits-only ones.
- An update of a WhatsApp button that lacks a DDD or a number crashes in
  `.replace`. The handler answers 500.

## Model

| member | source | states |
|---|---|---|
| Sequences.FindIndex | database/db.js:121 | -1 exactly when no element matches; otherwise a matching index with no match before it |
| Sequences.Find | database/db.js:55 | none exactly when no element matches; otherwise an element of the list that matches, with no match before it |
| Sequences.Filter | database/db.js:156 | keeps exactly the matching elements; the length is unchanged exactly when all match |
| Sequences.FilterConcat | database/db.js:217 | filtering a concatenation filters each part, so the kept elements keep their order |
| Sequences.FilterRemovesOne | database/db.js:217 | removing one rejected element among accepted ones yields the others, in order |
| Sequences.FilterKeepsAll | database/db.js:217 | whatever holds of every element holds of every kept one |
| Sequences.MaxOf | database/db.js:100 | `Math.max` of a non-empty list is an element of it and no element exceeds it |
| Sequences.SortDescendingPermutation | database/db.js:158-160 | the sort by `created_at` yields a permutation of its input, newest first |
| Sequences.SortStable | database/db.js:158-160 | buttons with equal `created_at` keep their relative order (the built-in sort is stable) |
| Text.NatToStringRoundTrip | routes/script.js:32 | reading back the decimal digits of `${id}` gives the id |
| Text.IntToStringInjective | routes/script.js:37 | different ids render as different texts |
| Store.NextId | database/db.js:99-101 | a new id is 1 for an empty list, else the largest id plus one; it exceeds every existing id |
| Store.NewestFirstOwned | database/db.js:154-162 | one owner's buttons sorted newest first are exactly that owner's buttons, as a permutation, in descending order |
| Store.IndexOfUserId | database/db.js:121 | -1 exactly when no user has the id, else the first position holding it |
| Store.IndexOfTarget | database/db.js:197 | -1 exactly when no button has both the id and the owner, else the first such position |
| Store.FirstOwnedIsTarget | database/db.js:138-145 | when the first button with an id is the caller's, the owner-scoped search finds the same position |
| Store.WithoutButton | database/db.js:217 | keeps exactly the buttons not matching both id and owner; shorter exactly when one matched |
| Store.WithoutNoTarget | database/db.js:217 | when no button has both the id and the owner, the filter leaves the list as it was |
| Store.FilterKeepsUniqueIds | database/db.js:217 | deleting never makes two remaining buttons share an id |
| Store.DeleteRemovesOneEntry | database/db.js:211-224 | with unique ids, delete removes exactly the matching entry and keeps the others in order |
| Store.ProfileBranchUnreachable | database/db.js:60-66 | no query reaches the projection branch, because every profile query also contains `WHERE id = ?` |
| Store.ProfileQueryIsIdLookup | database/db.js:54-76 | the profile query of `/me` is classified as the generic id lookup; with the corrected order it is the profile lookup |
| Store.Database.constructor | database/db.js:24-28 | a fresh document has no users and no buttons, and satisfies the invariant |
| Store.Database.FindUserByEmail | database/db.js:54-56 | the first user whose email is exactly that one, or none exactly when no user has it |
| Store.Database.FindUserByGoogleId | database/db.js:57-59 | the first user whose Google id is exactly that one, or none exactly when no user has it |
| Store.Database.FindUserById | database/db.js:60-63 | the first user with that id, or none exactly when no user has it |
| Store.Database.GetUser | database/db.js:51-79 | as written, every row the lookup returns is a full record |
| Store.Database.GetUserFixed | database/db.js:66-76 | with the profile test first, the profile query yields a row exactly when the id exists, holding that user's id, email, name and avatar and nothing else |
| Store.Database.ProfileQueryReturnsPassword | routes/auth.js:189 | for an existing id, `/me`'s query returns the stored record itself, password hash included |
| Store.Database.GetButton | database/db.js:135-149 | the first button with that id; none exactly when no button has the id or, with an owner given, that first button belongs to someone else |
| Store.Database.ScopedLookup | database/db.js:138-145 | with unique ids, the owner-scoped lookup succeeds exactly when a button with that id and owner exists |
| Store.Database.AllButtons | database/db.js:151-166 | exactly the user's buttons; a permutation of them newest first when ordered, in document order otherwise |
| Store.Database.ListIsStable | database/db.js:158-160 | within one creation instant the list keeps document order |
| Store.Database.CreateUser | database/db.js:86-117 | a duplicate truthy email, then a duplicate truthy Google id, is refused with the store unchanged; otherwise exactly one record with a fresh id is appended, with falsy password, Google id and avatar stored as null; ids stay unique |
| Store.Database.CreatedUserIsFound | database/db.js:54-114 | the appended user is what the lookups by its truthy email, by its truthy Google id and by its id return |
| Store.Database.UpdateUser | database/db.js:119-132 | an absent id changes nothing (0); otherwise only the entry of the first user with that id changes (1), every field the patch has overriding the stored one while id and creation time stay; ids stay unique |
| Store.Database.CreateButton | database/db.js:168-191 | exactly one record with a fresh id is appended, a falsy position becoming bottom-right; ids stay unique |
| Store.Database.UpdateButton | database/db.js:193-209 | no matching id and owner changes nothing (0); otherwise only the first match changes (1), keeping id, owner and creation time, with `updated_at` refreshed; ids stay unique |
| Store.Database.DeleteButton | database/db.js:211-224 | the list becomes the filtered list; 1 exactly when it got shorter, 0 exactly when nothing matched, and then the list is as it was; the others keep their order |
| Store.Database.RegisteredUserIsFound | database/db.js:253-256 | after the `(email, password, name)` insert, the lookup by email finds the new user with that name and hash, and no Google id or avatar |
| Store.Database.GoogleUserIsFound | database/db.js:257-262 | after the `(email, name, google_id, avatar_url)` insert, the lookup by Google id finds the new user with that email, name and avatar, and no password |
| Store.ButtonInsert | database/db.js:267-278 | the seven insert parameters map to the new button, and a falsy position already becomes bottom-right |
| Store.ButtonUpdate | database/db.js:281-295 | the update parameters set all six editable fields, whatever the stored button was |
| Buttons.Trim | routes/buttons.js:46 | `trim()` leaves the slice between a whitespace prefix and a whitespace suffix, and is empty exactly when the name is all whitespace |
| Buttons.TrimIdempotent | routes/buttons.js:46 | trimming twice is trimming once |
| Buttons.NameCheck | routes/buttons.js:46 | the name passes `trim().notEmpty()` exactly when it has a non-whitespace character |
| Buttons.CreateAcceptedExactly | routes/buttons.js:45-51 | create is accepted exactly when the name is visible, type and position are allowed, and the URL, or the DDD and number, are given for their type |
| Buttons.UpdateAcceptedExactly | routes/buttons.js:84-88 | update is accepted exactly when name, type and position pass, whatever the link fields hold |
| Buttons.CreateStricterThanUpdate | routes/buttons.js:45-88 | every request create accepts, update accepts too |
| Buttons.StripNonDigits | routes/buttons.js:64-65 | `replace(/\D/g, '')` yields only digits |
| Buttons.StripIdempotent | routes/buttons.js:64-65 | a string of digits is left alone, so stripping twice is stripping once |
| Buttons.WhatsAppLink | routes/buttons.js:66 | the link begins with `https://wa.me/55` and ends in digits only |
| Buttons.WhatsAppLinkDigits | routes/buttons.js:62-67 | after the prefix come exactly the digits of DDD then number; pre-stripping the inputs changes nothing |
| Buttons.WhatsAppLinkFormatted | routes/buttons.js:62-67 | an area code typed as `(dd)` and a number typed as `nnnnn-nnnn` give the link of the bare digits |
| Buttons.CreateNeverThrows | routes/buttons.js:49-67 | a validated create request never reaches the throwing path |
| Buttons.CreatedButton | routes/buttons.js:59-73 | a valid create stores the trimmed name, the given type and position, the URL or derived link, and the DDD and number through `\|\| null` |
| Buttons.UpdatedButton | routes/buttons.js:105-119 | a valid update keeps id, owner and creation time and sets the six fields as on create |
| Buttons.List | routes/buttons.js:12-22 | 200 with a permutation of the caller's buttons, newest first |
| Buttons.Show | routes/buttons.js:26-42 | 404 for a missing or foreign button, and otherwise 200 JSON with the caller's button with that id |
| Buttons.Create | routes/buttons.js:45-81 | 400 with the failed validators and the store unchanged; otherwise exactly one new button is appended and returned with 201 |
| Buttons.Update | routes/buttons.js:84-127 | 400 on invalid input, 404 for a missing or foreign button, 500 for a WhatsApp body without DDD or number, each with no write; otherwise only that button is replaced, and returned |
| Buttons.Delete | routes/buttons.js:130-146 | 404 exactly when nothing with that id and owner existed, with the list unchanged; otherwise the confirmation, with that button removed |
| Script.PositionMap | routes/script.js:16-21 | exactly the four corner names have an entry |
| Script.CornerIsOneOfFour | routes/script.js:16-23 | every position yields exactly one vertical and one horizontal offset, each `20px` |
| Script.PositionStyles | routes/script.js:23-29 | the exact offset text of each corner, vertical before horizontal; an unknown position is styled as bottom-right |
| Script.ClassName | routes/script.js:37 | the class name starts with `chatbutton-` |
| Script.PulseName | routes/script.js:37 | the animation name starts with `chatbutton-pulse-` |
| Script.NamesCarryTheId | routes/script.js:37 | after those prefixes, both names read back as the button's id |
| Script.NamesAreDistinct | routes/script.js:37 | two buttons never share a class or an animation name |
| Script.StyleNamesTheButton | routes/script.js:37 | the style opens with the button's class, `position:fixed;` and its offsets, and holds its animation, hover rule and keyframes |
| Script.ScriptEmbedsButton | routes/script.js:31-51 | the script declares the link between quotes (`undefined` when there is none), uses it as `href`, sets the class on the anchor and carries the style text |
| Script.ServeScript | routes/script.js:7-54 | 404 JSON exactly when no button has that id, whoever owns it; otherwise 200 `application/javascript` with the template |

## Left out

- File persistence (database/db.js:9-48): the document is the object's
  state. A missing data file corresponds to the constructor, and a failed
  read or write is not modelled.
- `new Date().toISOString()` and the `Date` comparison of the sort: each
  timestamp is an integer parameter. Ordering `new Date(...)` values is
  ordering those integers.
- `parseInt` of route parameters and of ids in `dbRun`: ids are integers.
  A non-numeric id (`NaN`, no match) is not modelled.
- The string dispatch of `dbGet`, `dbAll` and `dbRun` is replaced by typed
  operations. The exception is `dbGetUser`'s query classification, which
  is modelled for the finding. `dbAllUsers` and the unfiltered branch of
  `dbAllButtons` are not used by the routes modelled here.
- `null` and `undefined` are the same `None`. The script therefore renders
  a missing link as `undefined`; a link stored as JSON `null` would render
  as `null`.
- Request fields that are not strings (numbers, arrays, objects) are not
  modelled. Every present field is a string.
- A patch carrying `id` or `created_at` keys cannot be expressed: the
  patch types hold only the fields the routes send.
- The property lookup of `positionMap` on inherited keys such as
  `constructor` is not modelled. Only the four own keys map to an entry.
- The 500 responses of the catch blocks for failed store I/O, and the
  `; charset=utf-8` Express appends to content types.
- routes/auth.js (bcrypt, JWT, Google OAuth) is not part of this model,
  except for the query `/me` sends, cited in the finding.
- `express-validator` builds its error list in its own internal order.
  `CreateErrors` lists the failed validators in declaration order.
- The lost update when two requests read and write the file concurrently
  is not modelled.
- CreateUser, CreateButton: JavaScript number behaviour in id allocation
  (database/db.js:99-101 and 170-172) is not modelled. `Math.max(...ids)`
  spreads the whole id list into call arguments and throws a `RangeError`
  once the list is large (around 10^5 records), so both creations would
  throw and the routes answer 500. The model always succeeds with a fresh
  id.
- NextId: ids are unbounded integers, not doubles. Past 2^53, `max + 1`
  no longer yields a fresh id in JavaScript.
- IntToString: `${id}` is plain decimal for every id. JavaScript switches
  to exponent notation from 1e21 (routes/script.js:32 and 37).
- ButtonRecord: one `now` stamps both `created_at` and `updated_at`. The
  source reads the clock twice (database/db.js:183-184), so the two may
  differ by a millisecond.

## Findings

| source | as written | input that shows it | evidently intended | confidence | as-written member | corrected member |
|---|---|---|---|---|---|---|
| database/db.js:60-76 | the generic `WHERE id = ?` test comes before the projection test, so the projection branch never runs | `/me` sends `SELECT id, email, name, avatar_url FROM users WHERE id = ?` for an existing user; the full record comes back, password hash and Google id included | the projection query returns only id, email, name and avatar_url | high, not executed | Store.Database.ProfileQueryReturnsPassword | Store.Database.GetUserFixed |
