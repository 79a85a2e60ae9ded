# Portfolio site: admin editor, local persistence, access gate and API handlers

This project models the sequential logic of a personal portfolio website. Most of the site only renders one JSON document: name, title, intro, skills by category, projects, experience and contact details. The logic modelled here is the part around that document:

- **Admin editor.** `src/pages/admin/Dashboard.tsx` holds a draft of the document. Each edit replaces the draft with a copy-on-write update and saves it to `localStorage`. Module `Editing` holds the update bodies as pure functions. Class `Dashboard.DashboardInner` holds the component state and performs the save. Its invariant is that reloading the page gives back the draft on screen.
- **Local persistence.** `src/utils/portfolioStore.ts` stores one JSON text under `portfolio-data` and falls back to the bundled document. This is module `PortfolioStore` over class `Storage.LocalStorage`.
- **Access flag and route guard.** `src/routes/ProtectedRoute.tsx` is module `AccessGate`. `src/pages/admin/Login.tsx` is module `Login`: a fixed credential pair, an error message, and a redirect back to the page the guard refused.
- **Two serverless handlers.** `api/portfolio.js` is module `PortfolioApi`: public reads of one blob, and writes gated by a static bearer secret. `api/contact.js` is module `ContactApi`: ordered checks, then one e-mail composed from the trimmed fields.
- **Avatar initials.** `src/components/Hero.tsx` is module `Hero`. It is proved equal to an independent word-start definition.

Shared pieces:

- `Wrappers.Option` stands for `undefined`/`null`.
- `JsString` gives ECMAScript white space, `trim` and `startsWith`.
- `Json.Codec` is an abstract `JSON.stringify`/`JSON.parse` pair. `Json.Lawful` states that stringify is never `""` and parse inverts it.
- `Http.Response` is what a handler writes to its response.
- `Records` holds the array operations the editor uses (`filter` by position, `filter`/`map`/`find` by id).

Two behaviours of the code are easy to overlook and are modelled as written:

- A stored value that is the empty string counts as absent, like a missing one, and the bundled document is used.
- The access flag grants access only when it is exactly the string `"true"`.

## Model

| member | source | states |
|---|---|---|
| `PortfolioStore.Load` | src/utils/portfolioStore.ts:6-16 | the stored document when the key holds a non-empty text that parses; the bundled document when the key is absent, empty, or the parse throws; nothing else |
| `PortfolioStore.GetPortfolioData` | src/utils/portfolioStore.ts:6-16 | returns `Load` of the current store and, having no modifies clause, never writes it |
| `PortfolioStore.Save` | src/utils/portfolioStore.ts:18-20 | the key `portfolio-data` holds the document's text; every other key is unchanged |
| `PortfolioStore.SetPortfolioData` | src/utils/portfolioStore.ts:18-20 | the store becomes `Save` of the old store: an unconditional overwrite of the one key |
| `PortfolioStore.SaveThenLoad` | src/utils/portfolioStore.ts:6-20 | after `setPortfolioData(d)`, `getPortfolioData()` returns `d`, from any prior store, given a lawful codec |
| `PortfolioStore.SaveOverwrites` | src/utils/portfolioStore.ts:18-20 | two saves leave only the second document (last write wins) |
| `PortfolioStore.FreshStoreLoadsBundled` | src/utils/portfolioStore.ts:6-16 | an empty store yields the bundled document |
| `AccessGate.IsAdmin` | src/routes/ProtectedRoute.tsx:5-7 | true iff the key `isAdmin` is present and holds exactly `"true"` |
| `AccessGate.WithAdmin` | src/routes/ProtectedRoute.tsx:9-12 | setting the flag writes `"true"`, clearing it removes the key; no other key changes |
| `AccessGate.SetAdmin` | src/routes/ProtectedRoute.tsx:9-12 | the store becomes `WithAdmin` of the old store |
| `AccessGate.SetAdminThenIsAdmin` | src/routes/ProtectedRoute.tsx:5-12 | `setAdmin(v)` then `isAdmin()` yields `v`, from any prior store |
| `AccessGate.OnlyExactTrueGrants` | src/routes/ProtectedRoute.tsx:5-7 | any stored value other than `"true"` denies access |
| `AccessGate.Guard` | src/routes/ProtectedRoute.tsx:14-20 | children are rendered iff access is granted; otherwise a replacing redirect to `/admin` carrying the current location as `from` |
| `AccessGate.ProtectedRoute` | src/routes/ProtectedRoute.tsx:14-20 | renders iff the store grants access, with `Guard`'s redirect otherwise |
| `Login.RedirectTarget` | src/pages/admin/Login.tsx:16 | `state.from.pathname` when the state carries a `from`, else `/admin/dashboard` |
| `Login.GuardRedirectReturnsToRequestedPage` | src/routes/ProtectedRoute.tsx:16-18 | the guard's redirect state makes the login's target the originally requested path |
| `Login.Submit` | src/pages/admin/Login.tsx:21-26 | granted iff username is exactly `admin` and password exactly `123456`; granted goes to `from`; denied carries `Invalid username or password` |
| `Login.NoTrimming` | src/pages/admin/Login.tsx:21 | credentials with surrounding blanks are refused |
| `Login.LoginOpensGuard` | src/pages/admin/Login.tsx:22 | after a successful login the guard renders its children, from any prior store |
| `Login.LoginForm.constructor` | src/pages/admin/Login.tsx:11-13 | username, password and error start empty |
| `Login.LoginForm.ChangeUsername` | src/pages/admin/Login.tsx:44 | only the username changes |
| `Login.LoginForm.ChangePassword` | src/pages/admin/Login.tsx:52 | only the password changes |
| `Login.LoginForm.HandleSubmit` | src/pages/admin/Login.tsx:18-27 | on success the error is cleared, the flag set and navigation goes to the target, replacing; on failure the error is set, the store unchanged, no navigation |
| `Editing.UpdateKeepsUnpatched` | src/pages/admin/Dashboard.tsx:105-111 | specifies `Editing.Update`, the spread merge: each of the eight fields is the patch's value when the patch names it and the old value when it does not; an empty patch changes nothing |
| `Editing.UpdateComposes` | src/pages/admin/Dashboard.tsx:105-111 | two updates equal one update with the merged patch; repeating an update changes nothing more |
| `Editing.EditContact` | src/pages/admin/Dashboard.tsx:594-606 | only the named contact field changes; all other fields are kept |
| `Editing.AddSkillCategory` | src/pages/admin/Dashboard.tsx:113-122 | with `Editing.PromptedName` (the trimmed answer, `""` when cancelled): no change for a cancelled, blank or existing name; otherwise exactly that name is added with no chips and every other category kept |
| `Editing.AddSkillCategoryAsWritten` | src/pages/admin/Dashboard.tsx:113-122 | the code as written: a name inherited from `Object.prototype` is a no-op; on every other answer it equals the corrected `AddSkillCategory` |
| `Editing.InheritedCategoryNameIsRefused` | src/pages/admin/Dashboard.tsx:117 | on a document without a `constructor` category, answering `constructor` leaves it unchanged as written, while the corrected guard adds the category |
| `Editing.PromptedConstructor` | src/pages/admin/Dashboard.tsx:114 | the trimmed prompt answer `constructor` is `constructor` itself |
| `JsString.TrimIsMiddle` | src/pages/admin/Dashboard.tsx:114 | `trim` (here on the prompt answer, and alike for every trimmed field) returns the text between a blank prefix and a blank suffix |
| `Editing.RemoveSkillCategory` | src/pages/admin/Dashboard.tsx:124-131 | exactly that key goes; every other category and field is kept |
| `Editing.RenameSkillCategory` | src/pages/admin/Dashboard.tsx:284-289 | the old key goes, the new key maps to the old list (overwriting a category of that name), other categories and fields are kept |
| `Editing.RenameFrontendToClient` | src/pages/admin/Dashboard.tsx:284-289 | renaming `Frontend` (with chips TS, CSS) gives exactly `Client` with TS, CSS |
| `Editing.AddSkill` | src/pages/admin/Dashboard.tsx:306-313 | the value goes to the end of that category's list (created if absent); other lists untouched |
| `Editing.RemoveSkill` | src/pages/admin/Dashboard.tsx:314-321 | exactly position `index` is deleted, order kept; out of range the list is unchanged; other lists untouched |
| `Editing.AddProject` | src/pages/admin/Dashboard.tsx:133-148 | one blank record in front; the old list follows unchanged |
| `Editing.AddProjectKeepsIdsUnique` | src/pages/admin/Dashboard.tsx:133-148 | with a fresh id, project ids stay unique |
| `Editing.RemoveProject` | src/pages/admin/Dashboard.tsx:150-157 | every record with the id goes, every record with another id stays |
| `Editing.RemoveProjectAt` | src/pages/admin/Dashboard.tsx:150-157 | with unique ids, exactly that record is deleted, the rest in original order, ids still unique |
| `Editing.WithProjectField` | src/pages/admin/Dashboard.tsx:344-355 | a field edit never changes the record's id |
| `Editing.EditProject` | src/pages/admin/Dashboard.tsx:344-472 | records with the id get the field; all other records are identical; the list keeps its length |
| `Editing.EditProjectKeepsIds` | src/pages/admin/Dashboard.tsx:344-472 | every position keeps its id, so uniqueness is preserved both ways |
| `Editing.EditProjectAt` | src/pages/admin/Dashboard.tsx:344-472 | with unique ids, editing the project at position `k` replaces exactly that project with the edited one |
| `Editing.AddTechStackAt` | src/pages/admin/Dashboard.tsx:389-401 | specifies `Editing.AddTechStack` (with `Editing.TechStackOf`, the looked-up stack or `[]`): with unique ids, the value is appended to that project's stack and nothing else in the document changes |
| `Editing.AddTechStackUnknownId` | src/pages/admin/Dashboard.tsx:389-401 | a chip added under an unknown id changes nothing |
| `Editing.RemoveTechStackAt` | src/pages/admin/Dashboard.tsx:402-416 | specifies `Editing.RemoveTechStack`: with unique ids, exactly position `index` of that project's stack is deleted (or nothing out of range); nothing else in the document changes |
| `Editing.AddExperience` | src/pages/admin/Dashboard.tsx:159-172 | one blank entry in front; the old list follows unchanged |
| `Editing.AddExperienceKeepsIdsUnique` | src/pages/admin/Dashboard.tsx:159-172 | with a fresh id, experience ids stay unique |
| `Editing.RemoveExperience` | src/pages/admin/Dashboard.tsx:174-181 | every entry with the id goes, every entry with another id stays |
| `Editing.RemoveExperienceAt` | src/pages/admin/Dashboard.tsx:174-181 | with unique ids, exactly that entry is deleted, the rest in order, ids still unique |
| `Editing.WithExperienceField` | src/pages/admin/Dashboard.tsx:492-503 | a field edit never changes the entry's id |
| `Editing.EditExperience` | src/pages/admin/Dashboard.tsx:492-548 | entries with the id get the field; all other entries are identical |
| `Editing.EditExperienceKeepsIds` | src/pages/admin/Dashboard.tsx:492-548 | every position keeps its id, so uniqueness is preserved both ways |
| `Editing.EditExperienceAt` | src/pages/admin/Dashboard.tsx:492-548 | with unique ids, editing the entry at position `k` replaces exactly that entry with the edited one |
| `Editing.AddHighlightAt` | src/pages/admin/Dashboard.tsx:554-566 | specifies `Editing.AddHighlight` (with `Editing.HighlightsOf`): with unique ids, the value is appended to that entry's highlights and nothing else in the document changes |
| `Editing.RemoveHighlightAt` | src/pages/admin/Dashboard.tsx:567-581 | specifies `Editing.RemoveHighlight`: with unique ids, exactly position `index` of those highlights is deleted (or nothing out of range); nothing else in the document changes |
| `Records.DropIndex` | src/pages/admin/Dashboard.tsx:316 | the position filter never lengthens the list |
| `Records.DropIndexRemovesExactlyOne` | src/pages/admin/Dashboard.tsx:316 | the position filter equals deleting position `index`; out of range it is the identity |
| `Records.RemoveById` | src/pages/admin/Dashboard.tsx:153 | the id filter never lengthens the list |
| `Records.RemoveByIdMembers` | src/pages/admin/Dashboard.tsx:153 | survivors are records of the input without the id; every record with another id survives |
| `Records.RemoveByIdAppend` | src/pages/admin/Dashboard.tsx:153 | the id filter distributes over concatenation, so survivors keep their order |
| `Records.RemoveByIdAbsent` | src/pages/admin/Dashboard.tsx:153 | filtering an id nobody has is the identity |
| `Records.RemoveByIdAt` | src/pages/admin/Dashboard.tsx:153 | with unique ids, filtering the id at `k` deletes exactly position `k` |
| `Records.UniqueIdsTail` | src/pages/admin/Dashboard.tsx:153 | dropping the first record keeps ids unique |
| `Records.RemoveByIdKeepsUnique` | src/pages/admin/Dashboard.tsx:153 | filtering keeps ids unique |
| `Records.UpdateById` | src/pages/admin/Dashboard.tsx:348-350 | same length; matching records mapped, the others identical |
| `Records.UpdateByIdKeepsKeys` | src/pages/admin/Dashboard.tsx:348-350 | an id-preserving update keeps every id and uniqueness |
| `Records.FindById` | src/pages/admin/Dashboard.tsx:391 | none iff no record has the id; otherwise the first record of the list carrying the id |
| `Records.FindByIdUnique` | src/pages/admin/Dashboard.tsx:391 | with unique ids, `find` returns the record at that id's position |
| `Dashboard.ChipInput.constructor` | src/pages/admin/Dashboard.tsx:23 | the chip input starts empty |
| `Dashboard.ChipInput.Change` | src/pages/admin/Dashboard.tsx:58 | typing sets the input |
| `Dashboard.ChipInput.HandleKeyDown` | src/pages/admin/Dashboard.tsx:26-35 | on Enter or `,` with non-blank input, `onAdd` gets the trimmed (non-empty, unpadded) value and the box clears; otherwise nothing is added and the box is unchanged |
| `Dashboard.DashboardInner.constructor` | src/pages/admin/Dashboard.tsx:69-70 | the draft starts as what the store yields; no rename drafts; invariant holds |
| `Dashboard.DashboardInner.Commit` | src/pages/admin/Dashboard.tsx:118-120 | the draft is replaced, the store overwritten with it, and reloading still yields the draft |
| `Dashboard.DashboardInner.Update` | src/pages/admin/Dashboard.tsx:105-111 | draft becomes the merge; saved; invariant kept |
| `Dashboard.DashboardInner.EditContact` | src/pages/admin/Dashboard.tsx:594-606 | draft becomes the contact edit; saved; invariant kept |
| `Dashboard.DashboardInner.AddSkillCategory` | src/pages/admin/Dashboard.tsx:113-122 | draft becomes the corrected `Editing.AddSkillCategory` (inherited names differ from the code as written, see Left out); the store is written only when a category was added, and reloading still yields the draft |
| `Dashboard.DashboardInner.RemoveSkillCategory` | src/pages/admin/Dashboard.tsx:124-131 | draft loses the category; saved |
| `Dashboard.DashboardInner.ChangeCategoryDraft` | src/pages/admin/Dashboard.tsx:275 | only the rename draft of that category changes |
| `Dashboard.DashboardInner.BlurCategory` | src/pages/admin/Dashboard.tsx:276-291 | with `Editing.RenameTarget` (the trimmed draft, or the category itself when there is no draft): the category's draft is dropped; renamed and saved only for a non-empty, different name; otherwise document and store unchanged |
| `Dashboard.DashboardInner.AddSkill` | src/pages/admin/Dashboard.tsx:306-313 | draft gets the chip appended; saved |
| `Dashboard.DashboardInner.RemoveSkill` | src/pages/admin/Dashboard.tsx:314-321 | draft loses the chip at `index`; saved |
| `Dashboard.DashboardInner.AddProject` | src/pages/admin/Dashboard.tsx:133-148 | draft gets a blank project in front; saved |
| `Dashboard.DashboardInner.RemoveProject` | src/pages/admin/Dashboard.tsx:150-157 | confirmed: projects with the id removed and saved; declined: nothing changes |
| `Dashboard.DashboardInner.EditProject` | src/pages/admin/Dashboard.tsx:344-472 | draft gets the project field edit; saved |
| `Dashboard.DashboardInner.AddTechStack` | src/pages/admin/Dashboard.tsx:389-401 | draft gets the tech-stack chip; saved |
| `Dashboard.DashboardInner.RemoveTechStack` | src/pages/admin/Dashboard.tsx:402-416 | draft loses the tech-stack chip; saved |
| `Dashboard.DashboardInner.AddExperience` | src/pages/admin/Dashboard.tsx:159-172 | draft gets a blank entry in front; saved |
| `Dashboard.DashboardInner.RemoveExperience` | src/pages/admin/Dashboard.tsx:174-181 | confirmed: entries with the id removed and saved; declined: nothing changes |
| `Dashboard.DashboardInner.EditExperience` | src/pages/admin/Dashboard.tsx:492-548 | draft gets the experience field edit; saved |
| `Dashboard.DashboardInner.AddHighlight` | src/pages/admin/Dashboard.tsx:554-566 | draft gets the highlight chip; saved |
| `Dashboard.DashboardInner.RemoveHighlight` | src/pages/admin/Dashboard.tsx:567-581 | draft loses the highlight chip; saved |
| `Dashboard.DashboardInner.Logout` | src/pages/admin/Dashboard.tsx:185-188 | the admin flag is removed, the saved document untouched, navigation to `/admin` replacing |
| `PortfolioApi.Secret` | api/portfolio.js:4 | the configured secret when set and non-empty, else `myportfolio`; never empty |
| `PortfolioApi.BearerToken` | api/portfolio.js:31-32 | for a header starting with `Bearer `, the header is that prefix plus the token; otherwise the token is `""` |
| `PortfolioApi.BearerRoundTrip` | api/portfolio.js:32 | the header `Bearer <t>` yields exactly `t` |
| `PortfolioApi.Dispatch` | api/portfolio.js:12-54 | GET reads with no authorisation; POST/PUT write iff the token equals a non-empty secret, else 401; any other method 405 |
| `PortfolioApi.SecretNeverEmpty` | api/portfolio.js:33 | the `!SECRET` test never fires: writes are authorised iff the token equals the secret |
| `PortfolioApi.MissingBearerIsUnauthorized` | api/portfolio.js:31-36 | a write without a bearer header is refused |
| `PortfolioApi.ReadsArePublic` | api/portfolio.js:12 | a GET is routed to the read with any header |
| `PortfolioApi.ReadResponse` | api/portfolio.js:12-28 | 200 iff no fault, a blob at the path and a parsable blob, carrying `Content-Type: application/json` and the stored document re-serialised; 404 with no body iff no blob has the path and nothing faults; every other outcome (a fault, or a blob that does not parse) is 500 `Failed to load portfolio` |
| `PortfolioApi.WriteResult` | api/portfolio.js:37-50 | with `PortfolioApi.BodyValue` (a text body parsed, a decoded body as it is): 200 `{ok: true}` iff nothing faults and the body has a value, and then the path holds that value's JSON text and no other path changes; otherwise 500 `Failed to save portfolio` with the store unchanged |
| `PortfolioApi.Handler` | api/portfolio.js:11-55 | by route: read leaves the store unchanged; write as `WriteResult`; 401 `Unauthorized` and 405 with `Allow: GET, POST, PUT` leave it unchanged |
| `PortfolioApi.WriteThenRead` | api/portfolio.js:14-45 | an authorised write of a decoded body, or of a text body that parses to the same value, followed by a GET returns 200 with that value's JSON text |
| `ContactApi.LineBreaks` | api/contact.js:26 | the replacement never shortens the text |
| `ContactApi.LineBreaksNoNewline` | api/contact.js:26 | no newline survives the replacement |
| `ContactApi.LineBreaksPlain` | api/contact.js:26 | text without newlines passes through unchanged |
| `ContactApi.LineBreaksAppend` | api/contact.js:26 | the replacement distributes over concatenation |
| `ContactApi.LineBreaksLength` | api/contact.js:26 | the length grows by exactly three characters per newline |
| `ContactApi.LineBreaksNewline` | api/contact.js:26 | a newline becomes exactly `<br>`; with `LineBreaksAppend` and `LineBreaksPlain` this determines the replacement |
| `ContactApi.Handler` | api/contact.js:7-47 | non-POST 405 with `Allow: POST` first; missing key or recipient 500 next; a blank field 400; none of these sends mail; otherwise the mail built by `ContactApi.Compose` has the sender, recipient, trimmed reply-to, `ContactApi.Subject` (prefix and trimmed name), `ContactApi.PlainText` and `ContactApi.Html` of the trimmed fields, and the reply is 200 with the id iff delivered, else 500, with the fixed body `Failed to send message` when the send throws |
| `ContactApi.SendsIffValid` | api/contact.js:8-36 | mail is handed to the provider iff POST, configured and all three fields non-blank |
| `ContactApi.ProviderErrorMessage` | api/contact.js:38-41 | a provider error is reported with its message, or `Failed to send email` when it has none |
| `ContactApi.EmptyNameIsRefused` | api/contact.js:20-22 | an empty name gives 400 and no mail |
| `Hero.WordLength` | src/components/Hero.tsx:69 | the longest white-space-free prefix |
| `Hero.GapLength` | src/components/Hero.tsx:69 | the longest white-space prefix |
| `Hero.Split` | src/components/Hero.tsx:69 | at least one piece, even for the empty string |
| `Hero.SplitPiecesHaveNoSpace` | src/components/Hero.tsx:69 | no piece of the split contains white space |
| `Hero.Take2` | src/components/Hero.tsx:72 | a prefix of the text: exactly two characters when available, the whole text when shorter |
| `Hero.Upper` | src/components/Hero.tsx:73 | same length; each character upper-cased (ASCII) |
| `Hero.Initials` | src/components/Hero.tsx:68-73 | at most two characters |
| `Hero.WordStartsAreNonBlank` | src/components/Hero.tsx:68-73 | word starts are characters of the name and never white space |
| `Hero.WordStartsOverWord` | src/components/Hero.tsx:69-70 | within a word only its first character is a word start |
| `Hero.WordStartsOverGap` | src/components/Hero.tsx:69-70 | white space contributes nothing and the next character starts a word |
| `Hero.WordThenGap` | src/components/Hero.tsx:69-70 | a word followed by white space contributes only its first character, as `w[0]` does |
| `Hero.FirstCharsAreWordStarts` | src/components/Hero.tsx:69-71 | specifies `Hero.FirstChars` over `Hero.Split`: split, first characters and join give exactly the word starts in order; empty pieces contribute nothing |
| `Hero.InitialsAreWordStarts` | src/components/Hero.tsx:68-73 | the initials are the first two word starts upper-cased |
| `Hero.BlankHasNoWordStarts` | src/components/Hero.tsx:68-73 | a blank text has no word starts |
| `Hero.BlankNameHasNoInitials` | src/components/Hero.tsx:68-73 | an empty or white-space-only name gives `""` |
| `Hero.TwoWordStarts` | src/components/Hero.tsx:68-71 | two words separated by a space have their two first letters as word starts |
| `Hero.TwoWordInitials` | src/components/Hero.tsx:68-73 | two words separated by a space give their two upper-cased first letters |
| `Hero.AvatarOf` | src/components/Hero.tsx:64-74 | initials are shown iff the profile image is absent or blank; otherwise the image, untrimmed |

## Left out

- Remote sync is not part of this model. That covers `getPortfolioDataAsync`, the API-secret storage, `SyncResult`, `saveToCloud`/`loadFromCloud`, the `lastSync`/`syncing`/`apiSecret` state and the `.then(setLastSync)` in `update`. `Dashboard.tsx` imports these names, but `src/utils/portfolioStore.ts` defines none of them (it exports only `getPortfolioData`, `setPortfolioData` and `exportPortfolioJson`), so their behaviour cannot be modelled from the code.
- React state batching and the order in which asynchronous work completes are not modelled. Each updater is one atomic step on the current draft, so `data` and `prev` coincide.
- `newId()` depends on the clock and `Math.random`. The id is a parameter. Uniqueness lemmas require it to be fresh.
- The `prompt` and `confirm` dialogs become an optional string and a boolean parameter.
- `JSON.stringify`/`JSON.parse` are abstract (`Json.Codec`). The model never checks that a parsed value has the document's shape, and neither does the source.
- `exportPortfolioJson` is left out: it is pure browser I/O (Blob, object URL, anchor click).
- `localStorage` calls that throw are not modelled: a blocked storage's `getItem` (which the source's `try` turns into the default) and a quota-exceeded `setItem`.
- The skills record is a map. Category display order (object key order) is not modelled, so a rename moving its key to the end is not captured.
- Dashboard.DashboardInner.AddSkillCategory: the class uses the corrected guard `Editing.AddSkillCategory`, so for a name inherited from `Object.prototype` (such as `constructor`) it adds the category and writes the store, where the code as written returns the document unchanged and writes nothing; the as-written behaviour is `Editing.AddSkillCategoryAsWritten` (see Findings).
- Editing.RenameSkillCategory: requires the category to be present. The updater only runs for a rendered category. The source's result for an absent one is an `undefined` list, which the map cannot hold.
- The rename draft is a plain map. An inherited name such as `constructor` in `categoryRenameDraft[category]` would yield a function, and calling `.trim()` on it throws. That is not modelled.
- Hero.Upper: upper-cases ASCII letters only. Full Unicode case mapping (which can lengthen a string) is not modelled.
- Hero.FirstChar: takes one Unicode scalar value. JavaScript's `w[0]` takes one UTF-16 code unit, which differs for characters outside the Basic Multilingual Plane.
- `profileImage` is not a field of the document type. `Hero.AvatarOf` takes it as an optional string input.
- In `api/contact.js`, several request forms are not modelled:
  - A body that is a string failing `JSON.parse` throws outside the handler's `try`, so the response comes from the hosting platform and is not modelled.
  - Field values that are not strings would make `.trim()` throw.
  - The request body is taken as already decoded into three optional strings.
- The blob service and the e-mail provider are external. The blob store is a map from path to text. One flag says whether the service call made by a request throws. Listing with a prefix, pagination and fetching the blob URL collapse into a lookup. The provider's answer is an input.
- Rendering, animation, the canvas background, the other page components and routing configuration are outside the modelled core.

## Findings

| source | as written | input that shows it | evidently intended | confidence | as-written member | corrected member |
|---|---|---|---|---|---|---|
| src/pages/admin/Dashboard.tsx:117 | The existence test looks the name up as a property of the skills object. The lookup is truthy for every name inherited from `Object.prototype`, so those categories are never added. | Prompt answer `constructor` on a document without that category: the document is unchanged. | Refuse only names that are already categories. | high (JavaScript property lookup semantics); not executed | `Editing.AddSkillCategoryAsWritten` (shown by `Editing.InheritedCategoryNameIsRefused`) | `Editing.AddSkillCategory` |
