# Pet-shop core, modelled in Dafny

A model of the logic at the core of a small pet-shop application: a NestJS
backend that stores animals per owner and a Next.js frontend with
developer-mode stores, a session context and a translation table.

- **Animal store** (`animals_service.dfy`). The database table is a map
  from id to record inside the `AnimalStore` class.
  - Reads are open to everyone.
  - `Update` and `Remove` first look the record up (NotFound), then compare
    its owner with the caller (Forbidden), and only then write.
  - `Create` always records the caller as owner.
  - The statistics give per-type counts, both starting at 0, and the mean
    age in integer tenths, rounded half up.
- **Validation** (`validation.dfy`, `backend_schemas.dfy`,
  `shared_schemas.dfy`, `frontend_schemas.dfy`).
  - Each Zod object schema is a function from a payload to the list of
    issues Zod reports; a payload is valid when that list is empty.
  - Each schema has a lemma that states validity as an explicit conjunction
    of field rules.
  - Each schema function also states that its issues come grouped by
    field, in the order of the object's keys, as Zod walks the shape.
  - The frontend register form also checks password confirmation, with
    Zod 3 semantics: the check runs only when every field is a string.
- **Phone pattern** (`regex.dfy`, `phone.dfy`).
  - The pattern `^(\+55|55)?\s?(\(?[1-9]{2}\)?)?\s?(9?\d{4})[SEP]?(\d{4})$`
    is a small regular-expression syntax tree with a recursive matcher.
  - In the backend copy, `SEP` is `[-.\\s]`: one of `-`, `.`, a backslash or
    the letter `s`. It is not whitespace, so `1199999 9999` is rejected
    there.
  - In the frontend copy, `SEP` is `[-.\s]`, which does include whitespace.
- **Frontend stores** (`mock_data.dfy`, `animals_api.dfy`) over the records
  in `frontend_types.dfy`.
  - The developer-mode store keeps an array in browser storage
    (`browser_storage.dfy`) and appends new records.
  - The fallback list of the API client prepends them.
  - Both find the first index of an id, merge a patch into it, and delete
    with an order-preserving filter.
- **Session** (`auth_context.dfy`). The `AuthProvider` class holds user,
  token, developer-mode flag, loading flag and the last redirect, over the
  shared browser storage.
  - On initialisation, a stored token is kept when `exp * 1000 >= now`.
  - `login` and `register` share one two-state contract, `SignInOutcome`.
  - The route guard is a pure function of (loading, token, path).
- **Translations** (`i18n.dfy`).
  - The two 111-entry tables hold the source's entries, key for key.
  - The lookup falls back to the key when an entry is empty.
  - `LocaleStore` is the persisted locale cell, with the `localeChange`
    events it sends.
- **Dashboard header** (`stats_header.dfy`): the greeting by hour and the
  capitalisation of the first character.

`Date.now()`, `new Date()`, generated database ids, the JWT `exp` decoder
and Zod's `email()`/`uuid()` recognisers are parameters. The response of
the login and register requests is also a parameter: a `Result` whose
`Failure` stands for the request throwing.

## Model

| member | source | states |
|---|---|---|
| Regex.JoinMatch | apps/backend/src/common/schemas.ts:3 | matches of two pattern pieces concatenate to a match of the concatenated pattern |
| Regex.SplitMatch | apps/backend/src/common/schemas.ts:3 | a match of a concatenated pattern splits into a match of each piece |
| Regex.MatchLength | apps/backend/src/common/schemas.ts:3 | every matched string has length between the pattern's minimum and maximum |
| Regex.MatchChars | apps/backend/src/common/schemas.ts:3 | a pattern of plain character classes matches exactly the strings of its length whose characters are in the classes |
| Regex.MatchCons | apps/backend/src/common/schemas.ts:3 | how a leading character, optional or alternative term is matched |
| PhonePattern.CountryCodeLanguage | apps/backend/src/common/schemas.ts:3 | `(\+55\|55)?` matches exactly "", "+55" and "55" |
| PhonePattern.ExchangeLanguage | apps/backend/src/common/schemas.ts:3 | `(9?\d{4})` matches four digits, optionally preceded by a 9 |
| PhonePattern.LineNumberLanguage | apps/backend/src/common/schemas.ts:3 | `(\d{4})` matches exactly four digits |
| PhonePattern.SeparatorLanguage | apps/backend/src/common/schemas.ts:3 | the optional separator matches "" or one character of its class |
| PhonePattern.PatternLengths | apps/backend/src/common/schemas.ts:3 | with either separator class the pattern's shortest match has 8 characters and its longest 19 |
| PhonePattern.PhoneBounds | apps/backend/src/common/schemas.ts:3 | every accepted phone has 8 to 19 characters and ends in four digits |
| PhonePattern.SeparatorPosition | apps/backend/src/common/schemas.ts:3 | the fifth character from the end of an accepted phone is a digit or a separator |
| PhonePattern.BackendAcceptsExamples | apps/backend/src/auth/dto/auth.dto.ts:24 | the backend pattern accepts "11 99999-9999" and "+5581987730575" |
| PhonePattern.BackendRejectsSpaceSeparator | apps/backend/src/common/schemas.ts:3 | the backend pattern rejects "1199999 9999": its separator class has no whitespace |
| PhonePattern.BackendAcceptsLetterS | apps/backend/src/common/schemas.ts:3 | the backend pattern accepts the letter s as separator |
| PhonePattern.FrontendAcceptsExamples | apps/frontend/src/lib/schemas.ts:15 | the frontend pattern accepts "11 99999-9999" and "+5581987730575" |
| PhonePattern.FrontendAcceptsSpaceSeparator | apps/frontend/src/lib/schemas.ts:15 | the frontend pattern accepts a space between the digit groups |
| Validation.StringIssues | apps/backend/src/common/schemas.ts:17-20 | a present string has no issue exactly when it passes every chained check, all issues on its own path |
| Validation.StringField | apps/backend/src/common/schemas.ts:16-20 | a missing required field is an issue, a missing optional one is not, a present one is judged by its checks |
| Validation.NumberField | apps/backend/src/common/schemas.ts:48 | a number field has no issue exactly when present (or optional) and within every check |
| Validation.EnumField | apps/backend/src/common/schemas.ts:39 | an enum field has no issue exactly when its value is one of the options |
| Validation.AppendLastField | apps/frontend/src/lib/schemas.ts:18-21 | issues on the last key appended after a key-ordered list (an object-level `refine` on that key) keep the list in key order |
| Validation.NoIssuesConcat | apps/backend/src/common/schemas.ts:15-23 | an object has no issue exactly when none of its fields has |
| BackendSchemas.UserIssues | apps/backend/src/common/schemas.ts:15-23 | the user's issues come grouped by field in the schema's key order: id, name, email, password, contact |
| BackendSchemas.LoginIssues | apps/backend/src/common/schemas.ts:27-30 | the login issues come grouped by field: email, then password |
| BackendSchemas.RegisterIssues | apps/backend/src/common/schemas.ts:33 | the register issues come grouped by field: name, email, password, contact |
| BackendSchemas.AnimalBodyIssues | apps/backend/src/common/schemas.ts:64-72 | the create (or, optional, update) issues come grouped by field: name, age, type, breed, ownerName, ownerContact |
| BackendSchemas.AnimalIssues | apps/backend/src/common/schemas.ts:45-60 | the animal's issues come grouped by field in key order: id, name, age, type, breed, ownerId, ownerName, ownerContact |
| BackendSchemas.RegisterFieldRules | apps/backend/src/common/schemas.ts:33 | a valid registration has a name of 2 or more, an email, a password of 6 or more when present and a phone contact; the id plays no part |
| BackendSchemas.UserRules | apps/backend/src/common/schemas.ts:15-23 | a valid user has a uuid id when present, a name of 2 or more, an email, a password of 6 or more when present, and a contact matching the phone pattern |
| BackendSchemas.UserRejectsShortName | apps/backend/src/common/schemas.ts:17 | a name shorter than 2 fails both the user and the register schemas |
| BackendSchemas.UserPasswordRule | apps/backend/src/common/schemas.ts:19 | a present password shorter than 6 is rejected; dropping the password keeps a user valid |
| BackendSchemas.LoginRules | apps/backend/src/common/schemas.ts:27-30 | login needs a valid email and a password of 6 or more |
| BackendSchemas.RegisterRules | apps/backend/src/common/schemas.ts:33 | register is the user schema without id: a payload with no password still registers, every valid user registers |
| BackendSchemas.AnimalBodyRules | apps/backend/src/common/schemas.ts:64-72 | a create payload (or, optional, an update) has no issue exactly when each present field passes its check (non-empty name, breed and owner name, integer age of at least 0, CAT or DOG, a phone owner contact) and, unless optional, every field is present |
| BackendSchemas.AnimalRules | apps/backend/src/common/schemas.ts:45-60 | a valid animal has non-empty name, breed and owner name, an integer age of at least 0, type CAT or DOG, a phone owner contact, uuids where ids are given |
| BackendSchemas.CreateFromAnimal | apps/backend/src/common/schemas.ts:64-69 | create is the animal schema without ids: a valid animal is a valid create payload |
| BackendSchemas.UpdateIsPartialCreate | apps/backend/src/common/schemas.ts:72 | every valid create payload is a valid update, and `{}` is one |
| BackendSchemas.UpdateDropField | apps/backend/src/common/schemas.ts:72 | removing any field from a valid update keeps it valid |
| SharedSchemas.UserIssues | packages/shared/src/index.ts:13-21 | the user's issues come grouped by field in key order: id, name, email, password, contact |
| SharedSchemas.LoginIssues | packages/shared/src/index.ts:25-28 | the login issues come grouped by field: email, then password |
| SharedSchemas.RegisterIssues | packages/shared/src/index.ts:31 | the register issues come grouped by field: name, email, password, contact |
| SharedSchemas.AnimalCoreIssues | packages/shared/src/index.ts:62-72 | the create (or, optional, update) issues come grouped by field: name, age, type, breed |
| SharedSchemas.AnimalIssues | packages/shared/src/index.ts:43-58 | the animal's issues come grouped by field in key order: id, name, age, type, breed, ownerId, ownerName, ownerContact |
| SharedSchemas.UserRules | packages/shared/src/index.ts:13-21 | the shared user schema accepts any contact of 5 or more characters, with no pattern |
| SharedSchemas.LoginRules | packages/shared/src/index.ts:25-28 | login needs a valid email and a password of 6 or more |
| SharedSchemas.RegisterRules | packages/shared/src/index.ts:31 | register validates the user with its id stripped |
| SharedSchemas.AnimalRules | packages/shared/src/index.ts:43-58 | an animal is valid with its owner name and contact missing, or with any strings there |
| SharedSchemas.ParseCreateAnimal | packages/shared/src/index.ts:62-69 | parsing fails exactly on invalid payloads; success returns the payload's name, age, type and breed |
| SharedSchemas.CreateKeepsFourFields | packages/shared/src/index.ts:62-69 | the parse depends on name, age, type and breed only; ids, owner fields and timestamps are stripped |
| SharedSchemas.ParseCreateRoundTrip | packages/shared/src/index.ts:62-69 | parsing a payload built from create data gives the data back |
| SharedSchemas.AnimalCoreRules | packages/shared/src/index.ts:62-72 | a create payload (or, optional, an update) has no issue exactly when each present field passes its check (non-empty name and breed, integer age of at least 0, CAT or DOG) and, unless optional, all four are present |
| SharedSchemas.AgeRule | packages/shared/src/index.ts:46 | with the other three fields acceptable, an age is accepted by the create and by the update schema exactly when it is an integer of at least 0 |
| SharedSchemas.AgeRequired | packages/shared/src/index.ts:46 | a payload without an age is never a valid create payload, while dropping the age keeps an update valid |
| SharedSchemas.UpdateIsPartialCreate | packages/shared/src/index.ts:72 | any subset of the four fields of a valid create payload is a valid update |
| FrontendSchemas.PhoneRulesMeaning | apps/frontend/src/lib/schemas.ts:11-15 | the phone checks pass exactly on strings of 10 to 15 characters matching the frontend pattern |
| FrontendSchemas.LoginIssues | apps/frontend/src/lib/schemas.ts:3-6 | the login issues come grouped by field: email, then password |
| FrontendSchemas.RegisterFieldIssues | apps/frontend/src/lib/schemas.ts:8-17 | the object's field issues come grouped by field: name, email, phone, password, confirmPassword |
| FrontendSchemas.RegisterIssues | apps/frontend/src/lib/schemas.ts:8-21 | with the refinement's mismatch issue after them, the register issues are still grouped by field in key order |
| FrontendSchemas.AnimalIssues | apps/frontend/src/lib/schemas.ts:23-35 | the animal form's issues come grouped by field in key order: name, type, age, breed, ownerName, ownerContact |
| FrontendSchemas.LoginRules | apps/frontend/src/lib/schemas.ts:3-6 | login needs a valid email and a password of 6 or more |
| FrontendSchemas.RegisterFieldRules | apps/frontend/src/lib/schemas.ts:8-17 | the object's field checks pass exactly when every field is present with a name of 2 or more, an email, an accepted phone and a password of 6 or more |
| FrontendSchemas.FieldIssuesNotCustom | apps/frontend/src/lib/schemas.ts:8-17 | no field check of the register form reports a custom issue |
| FrontendSchemas.NoCustom | apps/frontend/src/lib/schemas.ts:8-17 | a string field's checks never report a custom issue |
| FrontendSchemas.RegisterRules | apps/frontend/src/lib/schemas.ts:8-21 | a valid registration has every field, name of 2 or more, email, accepted phone, password of 6 or more, and equal passwords |
| FrontendSchemas.PasswordConfirmation | apps/frontend/src/lib/schemas.ts:18-21 | the mismatch issue on confirmPassword is reported exactly when every field is present and the passwords differ |
| FrontendSchemas.AnimalRules | apps/frontend/src/lib/schemas.ts:23-35 | a valid animal form has non-empty name, breed and owner name, type DOG or CAT, age within 0..30, an accepted phone contact |
| FrontendSchemas.FractionalAgeAccepted | apps/frontend/src/lib/schemas.ts:28 | the age bound has no integer check: 2.5 is accepted, 30.5 and -1 are not |
| FrontendSchemas.ShortPhoneRejected | apps/frontend/src/lib/schemas.ts:11-15 | "99999999" matches the pattern but the register phone still rejects it for its length |
| AnimalsService.WriteAccess | apps/backend/src/animals/animals.service.ts:74-79 | a write is allowed exactly for the owner of a present record; an absent id is NotFound before any ownership check |
| AnimalsService.AnimalStore.Create | apps/backend/src/animals/animals.service.ts:11-19 | the new record is stored under its fresh id with the caller as owner; nothing else changes |
| AnimalsService.CreateForcesOwner | apps/backend/src/animals/animals.service.ts:13-16 | the caller's id overrides any owner id the payload carries |
| AnimalsService.AnimalStore.FindAll | apps/backend/src/animals/animals.service.ts:36-47 | a missing or empty query returns every record; otherwise exactly the records whose name or owner name contains it, ignoring case |
| AnimalsService.SearchNarrows | apps/backend/src/animals/animals.service.ts:37-45 | a longer query that contains a shorter one returns a subset of its results |
| AnimalsService.SearchFindsOwnName | apps/backend/src/animals/animals.service.ts:41 | a search for a record's own name finds it |
| AnimalsService.AnimalStore.FindOne | apps/backend/src/animals/animals.service.ts:50-56 | the record under the id, or NotFound when there is none |
| AnimalsService.AnimalStore.Update | apps/backend/src/animals/animals.service.ts:74-88 | absent id: NotFound, table unchanged; non-owner: Forbidden, table unchanged; owner: only that record is replaced by the patched one |
| AnimalsService.PatchedKeeps | apps/backend/src/animals/animals.service.ts:81-87 | an update keeps id and owner, takes every supplied field and keeps every other one |
| AnimalsService.PatchedIdempotent | apps/backend/src/animals/animals.service.ts:81-87 | an empty patch changes nothing; applying a patch twice is applying it once |
| AnimalsService.AnimalStore.Remove | apps/backend/src/animals/animals.service.ts:103-111 | absent id: NotFound; non-owner: Forbidden; both leave the table unchanged; owner: exactly that id is deleted |
| AnimalsService.WriteAccessExclusive | apps/backend/src/animals/animals.service.ts:77-79 | the owner may write a record and any other caller is Forbidden |
| AnimalsService.TallyLastWins | apps/backend/src/animals/animals.service.ts:129-132 | the reduce over the groups keeps the last count per type, and 0 for a type that has no group |
| AnimalsService.SumAgesRemove | apps/backend/src/animals/animals.service.ts:122-126 | the age sum does not depend on the order the records are visited in |
| AnimalsService.RoundedTenthsHalfUp | apps/backend/src/animals/animals.service.ts:138 | the average in tenths is the mean times ten rounded half up |
| AnimalsService.StatsCounts | apps/backend/src/animals/animals.service.ts:113-137 | dogs and cats are the per-type counts and add up to the total |
| AnimalsService.StatsAverage | apps/backend/src/animals/animals.service.ts:138 | the average is 0 for an empty table and the rounded mean otherwise |
| AnimalsService.AnimalStore.GetStats | apps/backend/src/animals/animals.service.ts:113-140 | total equals the table size and dogs plus cats; average 0 when empty, else within half a tenth of the mean |
| AnimalsService.StatsAfterCreate | apps/backend/src/animals/animals.service.ts:11-19 | a new record adds one to its type's count and its age to the sum |
| FrontendTypes.FirstIndex | apps/frontend/src/lib/mock-data.ts:104 | -1 exactly when no record has the id, otherwise the first index holding it |
| FrontendTypes.Find | apps/frontend/src/lib/mock-data.ts:84 | null exactly when the id is absent, otherwise the first record with it |
| FrontendTypes.Filter | apps/frontend/src/lib/mock-data.ts:118 | the kept records are exactly those of the input that pass the test |
| FrontendTypes.FilterConcat | apps/frontend/src/lib/mock-data.ts:118 | filtering preserves the order of the kept records |
| FrontendTypes.FilterKeepsAll | apps/frontend/src/lib/api/animals-api.ts:227 | a filter that keeps every record returns the list unchanged |
| FrontendTypes.FilterIdempotent | apps/frontend/src/lib/api/animals-api.ts:142 | filtering twice is filtering once |
| FrontendTypes.MergeFields | apps/frontend/src/lib/mock-data.ts:107-111 | a merge takes every supplied field and keeps every other one, with the new updatedAt |
| FrontendTypes.FormPatchKeepsIdentity | apps/frontend/src/lib/api/animals-api.ts:205-209 | a form patch never changes id, owner fields or createdAt |
| BrowserStorage.LocalStorage.SetItem | apps/frontend/src/lib/mock-data.ts:68 | the key now holds the value and every other key is unchanged |
| BrowserStorage.LocalStorage.RemoveItem | apps/frontend/src/lib/mock-data.ts:73 | the key is gone and every other key is unchanged |
| BrowserStorage.LocalStorage.GetItem | apps/frontend/src/lib/mock-data.ts:78 | the stored item under the key, or null when there is none |
| MockData.GetMockAnimals | apps/frontend/src/lib/mock-data.ts:77-80 | nothing or an empty string stored reads as `[]`; otherwise it succeeds exactly when an animal array is stored, and then returns that array |
| MockData.GetMockAnimal | apps/frontend/src/lib/mock-data.ts:82-85 | the first record with the id, or null |
| MockData.InitMockData | apps/frontend/src/lib/mock-data.ts:67-70 | both keys are written and the store reads as the three initial animals |
| MockData.ClearMockData | apps/frontend/src/lib/mock-data.ts:72-75 | both keys are removed and the store reads as `[]` |
| MockData.CreateMockAnimal | apps/frontend/src/lib/mock-data.ts:87-99 | the new record is appended and written back |
| MockData.CreateAppends | apps/frontend/src/lib/mock-data.ts:89-97 | length grows by one, earlier records stay, the new one is owned by the developer user and has a "mock-" id |
| MockData.UpdateMockAnimal | apps/frontend/src/lib/mock-data.ts:102-114 | absent id: "Animal not found", storage unchanged; otherwise the first match is merged and written back |
| MockData.UpdateTouchesOneIndex | apps/frontend/src/lib/mock-data.ts:104-111 | only the first match changes and the length is kept |
| MockData.DeleteMockAnimal | apps/frontend/src/lib/mock-data.ts:116-120 | the filtered array is written back |
| MockData.DeleteRemovesAll | apps/frontend/src/lib/mock-data.ts:118 | no record with the id remains, all others do, and an absent id is a no-op |
| MockData.InitialAnimalsFacts | apps/frontend/src/lib/mock-data.ts:23-63 | three records with distinct ids; the first two are owned by the developer user |
| AnimalsApi.FallbackAnimals.GetAll | apps/frontend/src/lib/api/animals-api.ts:127 | the whole list, in its stored order |
| AnimalsApi.FallbackAnimals.GetMyAnimals | apps/frontend/src/lib/api/animals-api.ts:142 | exactly the records flagged isOwner, and it is the order-preserving `Filter` of the list |
| AnimalsApi.FallbackAnimals.GetById | apps/frontend/src/lib/api/animals-api.ts:157 | null exactly when no record has the id; otherwise a record with the id that no earlier record has |
| AnimalsApi.FallbackAnimals.Create | apps/frontend/src/lib/api/animals-api.ts:175-185 | the new record is put in front of the list |
| AnimalsApi.CreatePrepends | apps/frontend/src/lib/api/animals-api.ts:175-184 | length grows by one, old records follow in order, creator "1", isOwner true |
| AnimalsApi.FallbackAnimals.Update | apps/frontend/src/lib/api/animals-api.ts:203-212 | absent id: "Animal not found", list unchanged; otherwise the first match is merged |
| AnimalsApi.UpdateTouchesOneIndex | apps/frontend/src/lib/api/animals-api.ts:203-210 | only the first match changes, keeping its id and owner fields |
| AnimalsApi.FallbackAnimals.Delete | apps/frontend/src/lib/api/animals-api.ts:227 | the list keeps, in order, the records with other ids |
| AnimalsApi.DeleteKeepsOrder | apps/frontend/src/lib/api/animals-api.ts:227 | delete preserves order, removes every match and is a no-op on an absent id |
| AnimalsApi.InitialAnimalsFacts | apps/frontend/src/lib/api/animals-api.ts:13-98 | six records with the distinct ids "1" to "6", three of them owned |
| AuthContext.Expired | apps/frontend/src/lib/auth/auth-context.tsx:73 | only a token with an `exp` claim can expire, and it has when `exp * 1000 < now`; a missing claim never expires |
| AuthContext.GuardRedirect | apps/frontend/src/lib/auth/auth-context.tsx:96-109 | no redirect while loading; the only targets are /login, without a token on a protected path, and /dashboard, with a token on an open path |
| AuthContext.GuardWaitsWhileLoading | apps/frontend/src/lib/auth/auth-context.tsx:98 | while loading there is no redirect |
| AuthContext.GuardDecision | apps/frontend/src/lib/auth/auth-context.tsx:100-109 | to /login exactly without a token on a protected path, to /dashboard exactly with a token on an open path, never both |
| AuthContext.PublicPrefixes | apps/frontend/src/lib/auth/auth-context.tsx:33 | every path below a public route is public |
| AuthContext.GuardExamples | apps/frontend/src/lib/auth/auth-context.tsx:100-109 | the dashboard without a token goes to /login; /login with a token goes to the dashboard |
| AuthContext.AuthProvider.InitAuth | apps/frontend/src/lib/auth/auth-context.tsx:55-91 | mock mode wins; a live token and user are restored; an expired or undecodable token clears both keys; for a readable token and user, both keys stay stored exactly when the token has not expired |
| AuthContext.AuthProvider.Login | apps/frontend/src/lib/auth/auth-context.tsx:112-122 | on success user and token are set, both keys written, redirect to /dashboard; on failure nothing changes |
| AuthContext.AuthProvider.Register | apps/frontend/src/lib/auth/auth-context.tsx:124-134 | as login |
| AuthContext.AuthProvider.SignIn | apps/frontend/src/lib/auth/auth-context.tsx:112-134 | the steps login and register share |
| AuthContext.AuthProvider.LoginAsDeveloper | apps/frontend/src/lib/auth/auth-context.tsx:137-144 | mock data initialised, mock flag stored, developer user and token set, authenticated |
| AuthContext.AuthProvider.Logout | apps/frontend/src/lib/auth/auth-context.tsx:146-159 | user and token cleared and both keys removed; in mock mode the mock keys and flag go too |
| AuthContext.AuthProvider.IsAuthenticated | apps/frontend/src/lib/auth/auth-context.tsx:170 | authenticated exactly when there is a non-empty token and a user |
| AuthContext.AuthProvider.UpdateUser | apps/frontend/src/lib/auth/auth-context.tsx:161-164 | the user is replaced in state and storage, nothing else changes |
| I18n.LocaleOf | apps/frontend/src/lib/i18n.ts:5 | a string names a locale exactly when it is that locale's tag |
| I18n.PtBRText | apps/frontend/src/lib/i18n.ts:8-129 | every key has a non-empty pt-BR string |
| I18n.EnUSText | apps/frontend/src/lib/i18n.ts:130-251 | every key has a non-empty en-US string |
| I18n.Translate | apps/frontend/src/lib/i18n.ts:301-303 | the locale's string when non-empty, else the key; a name inherited from `Object.prototype`, such as "constructor", gives the key; any other unknown locale fails |
| I18n.NeverFallsBack | apps/frontend/src/lib/i18n.ts:7-254 | for either locale the lookup never falls back to the key |
| I18n.KnownLocaleNeverFallsBack | apps/frontend/src/lib/i18n.ts:302 | a locale string naming a table always gets that table's entry |
| I18n.LocaleStore.GetLocale | apps/frontend/src/lib/i18n.ts:258-261 | pt-BR without a window or with nothing or "" stored, else the stored string |
| I18n.LocaleStore.SetLocale | apps/frontend/src/lib/i18n.ts:263-270 | no window: no-op; same locale: no write and no event; else stored and one event sent; afterwards getLocale returns it |
| I18n.LocaleStore.T | apps/frontend/src/lib/i18n.ts:272-275 | the current locale's entry; the key for a stored inherited name; fails when the stored locale names neither a table nor an inherited property |
| I18n.UnknownStoredLocale | apps/frontend/src/lib/i18n.ts:260 | a stored "fr-FR" makes every lookup fail |
| I18n.InheritedStoredLocale | apps/frontend/src/lib/i18n.ts:272-275 | a stored "constructor" or "__proto__" names no table, yet `t` returns the key |
| I18n.TagRoundTrip | apps/frontend/src/lib/i18n.ts:5 | a tag names its locale again, and tags are distinct |
| StatsHeader.GetGreeting | apps/frontend/src/components/domain/stats-header.tsx:24-28 | Bom dia before 12, Boa tarde from 12 to 17, Boa noite from 18 |
| StatsHeader.GreetingMonotone | apps/frontend/src/components/domain/stats-header.tsx:24-28 | every hour gets one greeting and later hours never get an earlier one |
| StatsHeader.Capitalize | apps/frontend/src/components/domain/stats-header.tsx:21 | same length, first character upper-cased, the rest unchanged, "" to "" |
| StatsHeader.CapitalizeIdempotent | apps/frontend/src/components/domain/stats-header.tsx:21 | capitalising twice is capitalising once |
| Strings.NatToStringValue | apps/frontend/src/lib/api/animals-api.ts:176 | the decimal rendering of `Date.now()` reads back as the number |
| Strings.ContainsTransitive | apps/backend/src/animals/animals.service.ts:41-42 | containment is transitive |

## Left out

- `main.ts` registers no global validation pipe. The service is therefore
  modelled on the declared DTO shapes. The create payload carries an
  optional stray `ownerId`; no other stray keys are modelled. The update
  payload has the six declared DTO fields, so a raw body that carries
  `ownerId` or `id` is not modelled. AnimalsService.PatchedKeeps therefore
  holds by the shape of the patch: without a validation pipe, the source's
  spread of a raw body would let such a body reassign the owner or the id.
- AnimalsService.AnimalStore.FindAll: returns a set. The database's row
  order is not modelled.
- AnimalsService.AnimalStore.GetStats: a ghost function over the map.
  - The `Promise.all` of the three queries is taken as one sequential read.
  - The floating-point average is exact integer tenths.
  - The average is within half a tenth of the ideal mean.
- Strings.Lower: ASCII only. Prisma's `mode: 'insensitive'` depends on the
  database collation, and Unicode case folding is not modelled.
- StatsHeader.Capitalize: ASCII upper-casing only; pt-BR weekday names start
  with ASCII letters. `toLocaleDateString` formatting is not modelled: the
  date string is an input.
- Zod:
  - `email()` and `uuid()` are given predicates.
  - `z.coerce.number()` conversion is not modelled: the payload carries the
    coerced number, and a missing field stands for NaN.
  - Payload fields of the wrong JSON type are not modelled.
  - Zod's messages are replaced by issue codes, except the password
    mismatch message.
  - The `createdAt`/`updatedAt` `z.date()` fields and `RoleSchema` (not
    used by any other schema) are not modelled.
- Validation.StringIssues: `min`/`max` lengths count characters (Unicode
  scalar values), while Zod counts UTF-16 code units with `.length`. A
  string with characters outside the Basic Multilingual Plane, such as an
  emoji, is shorter here than in Zod.
- MockData.NewMockAnimal: `createdAt` and `updatedAt` take the one `stamp`
  parameter, while the source calls `new Date()` once for each; two
  different readings of the clock are not modelled.
- AnimalsApi.NewRecord: as MockData.NewMockAnimal, one `stamp` for both
  timestamps, where the source reads the clock twice.
- Numbers are `real` on the frontend and `int` in the backend table; IEEE
  floating point, NaN and Infinity are not modelled.
- JSON through browser storage is the identity. The following are treated
  as failures:
  - a stored value that is not an animal array, under the mock-animals key;
  - a value other than a user, under the auth user key.

  A non-text value under the token key counts as undecodable.
- The JWT payload decode (`atob`/`JSON.parse`) is the `decode` parameter.
- The fetch branches of the API clients, `setTimeout` delays and console
  output are not modelled. Only the fallback branches are modelled, and the
  request is taken to have failed.
- AnimalsApi.FallbackAnimals.GetAll: returns the list as a value. Sharing
  the array by reference with the caller is not modelled.
- React:
  - state batching and effect scheduling are not modelled;
  - the router is the `redirect` field, and the route-guard effect is the
    pure `GuardRedirect`;
  - the `useTranslation` hook's own locale state and its event listener are
    not modelled (its `translate` is `I18n.Translate`);
  - window events are the `dispatched` sequence.
- UI components, controllers, the auth service (password hashing, JWT
  minting) and Prisma internals are outside this model.
