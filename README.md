# RotaGourmet sign-up and restaurant backend in Dafny

RotaGourmet is a mobile app where diners find restaurants and restaurants advertise their
service. This project models its core in Dafny and proves properties of the model:

- **Cloud Functions backend** (`functions/src/index.ts`, module `CloudFunctions`). There are
  HTTP handlers for restaurants (create, list and search, get, update, delete) and for client
  profiles (create, get, update, delete).
  - The handlers are methods of the class `Backend`. Its fields are the three document
    collections: `restaurants`, `users` and `users_private`.
  - Each handler states its HTTP status and the new state of every collection.
  - Two supporting modules describe the document store. `Documents` gives the stored shapes
    and the two write semantics, a merge and a whole-map replace. `RestaurantQueries` gives
    the query semantics the listing relies on: equality filters, ordering with an id
    tie-break, start and end cursors, and `limit`.
- **Brazilian document validators** (`utils/br.ts`, module `BrDocuments`). These check phone
  and CEP lengths and the two modulo-11 check digits of CPF and CNPJ. The check-digit loops
  are methods proved against specification functions.
- **Client save service** (`services/saveClient.ts`, module `ClientService`). It normalises
  the payload, runs the validation chain, and builds the two documents of the batch with
  `compactObject` (a loop proved against `Compacted`).
- **Registration context** (`hooks/useRegistration.tsx`, module `Registration`). This is the
  wizard's shared state. Its setters shallow-merge a partial patch, and the two `basics`
  setters also merge the nested address. `reset` restores the initial state.
- **Restaurant save service** (`services/saveRestaurant.ts`, module `RestaurantService`).
  - `guessExt` is modelled as the leftmost match of `/\.(\w+)(?:\?|#|$)/i`.
  - The model also covers the storage paths, the base document, and the follow-up URL write.
- **Operational screen** (`app/screens/registerrestaurantoperational.tsx`, module
  `OperationalForm`). It covers `validarHorario`, the button's enabling condition and the
  "next" handler, the day toggles, and the queue-list updaters.
- **Final screen** (`app/screens/registerfinal.tsx`, module `FinalStep`). It covers the
  e-mail and password checks, the order the finish handler applies them, the client
  completeness check before `saveClient`, and the error-message mapping.
- **Cross-checks between these pieces** (module `Consistency`). They cover where the screen
  checks are stricter than the backend, and how the search cursor treats names that tie.

### Modelling conventions

- The clock, document ids generated by the store, and download URLs are parameters. So are
  the authenticated caller and the upload timestamps.
- Strings are sequences of Unicode scalar values. Where the code uses JavaScript's `length`
  (the password check), the model counts UTF-16 code units with `Text.Utf16Length`.
  Scalar-value order is also code-point order, the order the document store sorts text by.
- Regular expressions are written out as predicates. They use JavaScript's `\s` and `.`
  classes (`.` stops at line terminators).
- `toLowerCase` is ASCII lower-casing, which decides every comparison the code makes against
  ASCII text.

### Behaviour of the code, as modelled

- The operational screen keeps its own state (times as `horarioAbertura`/`horarioFechamento`,
  initial prices 20 and 80). The "next" button only navigates. Nothing the screen collects
  reaches the registration context, which keeps a per-day `horarios` map.
- On the final screen, the account is created before the client's earlier steps are checked
  for completeness. The restaurant flow creates the account and saves nothing.
- The password-mismatch branch of the finish handler cannot fire: the button is disabled
  unless both passwords are equal.
- Two accounts can hold the same CPF: the sign-up screen's `saveClient` writes the private
  record with no duplicate check. The backend's duplicate check then looks only at the holder
  that sorts first by document id, so that account passes it.
- Search pagination continues strictly after the last name shown. A restaurant whose name
  equals that name and that did not fit on the page is never listed.

## Model

| member | source | states |
|---|---|---|
| Text.OnlyDigits | rotagourmet/utils/br.ts:2 | `onlyDigits` yields only ASCII digits and never lengthens its input |
| Text.OnlyDigitsAppend | rotagourmet/utils/br.ts:2 | stripping non-digits distributes over concatenation (it works character by character, in order) |
| Text.OnlyDigitsOfDigits | rotagourmet/functions/src/index.ts:60-62 | a string of digits is left unchanged |
| Text.OnlyDigitsIdempotent | rotagourmet/services/saveClient.ts:5 | normalising twice is normalising once |
| Text.TrimSlice | rotagourmet/functions/src/index.ts:442-444 | `trim` returns a slice of the input with only whitespace removed on each side, and the result neither starts nor ends with whitespace |
| Text.TrimEmptyIff | rotagourmet/functions/src/index.ts:442-444 | `isNonEmptyString` fails exactly when the text is all whitespace |
| Text.TrimIdempotent | rotagourmet/services/saveClient.ts:6 | `str` trimmed again is unchanged |
| Text.TrimNoSpace | rotagourmet/services/saveClient.ts:6 | text without whitespace is its own trim |
| Text.Lower | rotagourmet/functions/src/index.ts:505 | the lower-cased text has the input's length, holds no ASCII capital letter, and at every position is the input's character up to ASCII case |
| Text.LowerEqualIff | rotagourmet/functions/src/index.ts:590 | two texts lower-case to the same text iff they have the same length and agree position by position up to ASCII case |
| Text.Utf16LengthOfBmp | rotagourmet/app/screens/registerfinal.tsx:56 | JavaScript's `length` counts each character within the Basic Multilingual Plane once, so it equals the number of characters there |
| Text.LowerIdempotent | rotagourmet/functions/src/index.ts:590 | lower-casing twice is lower-casing once |
| Text.LessTransitive | rotagourmet/functions/src/index.ts:233 | the store's order on names is transitive (and, with LessIrreflexive and LessTotal, a strict total order) |
| Text.LessTotal | rotagourmet/functions/src/index.ts:233 | any two distinct names are ordered one way or the other |
| Text.LessExtension | rotagourmet/functions/src/index.ts:234 | a proper extension of a name sorts after it |
| Text.Decimal | rotagourmet/app/screens/registerrestaurantoperational.tsx:91 | a template-literal number renders as a non-empty run of digits |
| Text.DecimalRoundTrip | rotagourmet/app/screens/registerrestaurantoperational.tsx:91 | reading the rendered digits back gives the number |
| BrDocuments.PhoneAndCepIgnoreFormatting | rotagourmet/utils/br.ts:4-10 | the phone and CEP checks see only digits; on bare digits the phone is valid iff it has 10 or 11 of them and the CEP iff it has 8 |
| BrDocuments.CpfDigit | rotagourmet/utils/br.ts:15-23 | each accumulation loop of `isValidCPF` computes the check digit of the first n digits weighted n + 1 down to 2 |
| BrDocuments.IsValidCPF | rotagourmet/utils/br.ts:12-25 | returns true exactly when the CPF rule holds: 11 digits, not all equal, both check digits match |
| BrDocuments.Calc | rotagourmet/utils/br.ts:30-38 | the counting-down, wrapping `pos` loop computes the check digit over the weights 2..9 repeated from the right |
| BrDocuments.IsValidCNPJ | rotagourmet/utils/br.ts:27-42 | returns true exactly when the CNPJ rule holds: 14 digits, not all equal, both check digits match |
| BrDocuments.CnpjWeightTables | rotagourmet/utils/br.ts:31-34 | the weights the loop produces are the published tables 5,4,3,2,9,…,2 and 6,5,…,2 |
| BrDocuments.CheckDigitRulesAgree | rotagourmet/utils/br.ts:17-18 | the CPF form `11 - r, 0 if ≥ 10` and the CNPJ form `r < 2 ? 0 : 11 - r` agree on every sum |
| BrDocuments.RepeatedDigitsRejected | rotagourmet/utils/br.ts:14 | a number of one repeated digit is rejected by both validators whatever its check digits |
| BrDocuments.ZerosAndOnesRejected | rotagourmet/utils/br.ts:29 | "00000000000" is not a CPF and "11111111111111" is not a CNPJ |
| BrDocuments.DocumentsIgnoreFormatting | rotagourmet/utils/br.ts:13 | a formatted number and its bare digits get the same verdict |
| BrDocuments.ValidLengths | rotagourmet/utils/br.ts:14 | a valid CPF has exactly 11 digits, a valid CNPJ 14 |
| BrDocuments.KnownCnpjAccepted | rotagourmet/utils/br.ts:27-42 | the bare CNPJ 11222333000181 is accepted |
| BrDocuments.AlteredCnpjRejected | rotagourmet/utils/br.ts:41 | changing its last digit makes it invalid |
| BrDocuments.KnownCpfAccepted | rotagourmet/utils/br.ts:12-25 | the bare CPF 52998224725 is accepted |
| BrDocuments.AlteredCpfRejected | rotagourmet/utils/br.ts:24 | changing its last digit makes it invalid |
| Documents.OverLaws | rotagourmet/functions/src/index.ts:335-340 | laying patches over a stored value composes (`p` then `q` is `q` over `p`), an absent patch changes nothing, and repeating a patch changes nothing more |
| Documents.MergeUpdatesFields | rotagourmet/functions/src/index.ts:322-390 | the intended update: every present top-level key takes the new value and every absent one keeps the stored value; inside `endereco`, `horario`, `preco` and `servicos` each sub-key, present or absent, does the same; owner, status, rating and creation time never change, and `updatedAt` becomes now |
| Documents.MergeUpdatesIdempotent | rotagourmet/functions/src/index.ts:390 | applying the same update twice is applying it once |
| Documents.EmptyUpdateTouchesOnlyTimestamp | rotagourmet/functions/src/index.ts:322-324 | a body with no recognised keys changes only `updatedAt`, under either write semantics |
| Documents.ReplaceAgreesOnFullUpdates | rotagourmet/functions/src/index.ts:332-390 | the as-written replace and the merge differ only when a nested map of the update lacks some of its keys |
| Documents.ReplaceLosesSiblingKeys | rotagourmet/functions/src/index.ts:332-342 | as written, an update carrying only `endereco.bairro` erases the stored cep and uf; the merge keeps them |
| Documents.MergeProfileProperties | rotagourmet/functions/src/index.ts:643 | a merging set on a profile: every present key and address sub-key takes the new value, every absent one keeps the stored value |
| Documents.MergeProfileIdempotent | rotagourmet/functions/src/index.ts:643 | repeating a merging set on a profile changes nothing more, and an empty patch changes nothing |
| RestaurantQueries.BeforeTransitive | rotagourmet/functions/src/index.ts:233 | the result order (by name with id tie-break, or newest first) is transitive |
| RestaurantQueries.BeforeAsymmetric | rotagourmet/functions/src/index.ts:253 | it is asymmetric |
| RestaurantQueries.BeforeTotal | rotagourmet/functions/src/index.ts:253 | it orders any two distinct documents |
| RestaurantQueries.Candidates | rotagourmet/functions/src/index.ts:217-230 | a document is admitted iff it is active, passes every filter given and lies within the cursors |
| RestaurantQueries.First | rotagourmet/functions/src/index.ts:233 | returns the element of a non-empty set that precedes all others in the query order |
| RestaurantQueries.Run | rotagourmet/functions/src/index.ts:236-238 | a query returns at most `limit` admitted documents, strictly in order, and anything admitted but left out comes after all of them on a full page |
| RestaurantQueries.PageUnique | rotagourmet/functions/src/index.ts:236-238 | the page of a query is uniquely determined by the admitted set |
| RestaurantQueries.NextPageAfterLastItem | rotagourmet/functions/src/index.ts:253-260 | browsing after the last document of a full page admits exactly the admitted documents not yet shown |
| RestaurantQueries.SearchRangeIsPrefixMatch | rotagourmet/functions/src/index.ts:234 | `startAt(t).endAt(t + "\uf8ff")` admits exactly the names that extend `t` whose next character, if any, is below U+F8FF, plus `t + "\uf8ff"` itself |
| CloudFunctions.IsTimeShape | rotagourmet/functions/src/index.ts:69-71 | `isTime` holds iff the text is digit, digit, colon, digit, digit |
| CloudFunctions.IsTimeIsShapeOnly | rotagourmet/functions/src/index.ts:69-71 | "24:00" and "99:99" pass, "9:00" and "08h00" do not |
| CloudFunctions.CreateRestaurantCheckSound | rotagourmet/functions/src/index.ts:113-132 | the create checks accept a body iff the stored listing would have a name, 14 digits of CNPJ, uf and município, two `HH:mm` times and an ordered price range |
| CloudFunctions.ClampLimit | rotagourmet/functions/src/index.ts:204-208 | the page size is 20 by default and otherwise the request clamped to [1, 50] |
| CloudFunctions.ParseFlag | rotagourmet/functions/src/index.ts:194-200 | a flag is present iff the parameter is, and true iff it reads "true" in any case |
| CloudFunctions.SearchNamesNonEmpty | rotagourmet/functions/src/index.ts:241 | every name a search admits is non-empty, so a non-empty page always yields a cursor |
| CloudFunctions.SearchFindsPrefixes | rotagourmet/functions/src/index.ts:234 | without a name cursor, every name found extends the search text |
| CloudFunctions.SearchAdmitsExtensions | rotagourmet/functions/src/index.ts:232-236 | every active, matching restaurant whose name extends the text is admitted |
| CloudFunctions.FillUpdates | rotagourmet/functions/src/index.ts:322-388 | filling `updates` key by key, stopping at the first failed time or price check, yields exactly `BuildUpdates` of the body |
| CloudFunctions.BuildUpdatesGuarantees | rotagourmet/functions/src/index.ts:322-388 | an accepted update sets only empty or `HH:mm` times, an ordered full price range, digit-only cnpj and cep, and carries exactly the keys of the body |
| CloudFunctions.BuildUpdatesRejects | rotagourmet/functions/src/index.ts:353-379 | a body is refused iff it sets a non-empty malformed time or a full inverted price range |
| CloudFunctions.UpdatesCanBreakStoredRules | rotagourmet/functions/src/index.ts:322-388 | an accepted update can leave a stored price range inverted or give a restaurant another restaurant's CNPJ |
| CloudFunctions.Allergies | rotagourmet/functions/src/index.ts:467-469 | `alergias` is null iff the text is all whitespace; otherwise it is the trimmed text, which is non-empty, has no whitespace at either end, and is its own trim |
| CloudFunctions.CreatedProfileShape | rotagourmet/functions/src/index.ts:457-527 | after an accepted create the profile has the type "cliente", the trimmed non-empty name with its lower-case form, a digit-only phone and an 8-digit CEP, whatever was stored before |
| CloudFunctions.QueryCpf | rotagourmet/functions/src/index.ts:489-490 | `where("cpf", "==", cpf).limit(1)` returns nothing iff no account holds the CPF, and otherwise the holder that sorts first by document id |
| CloudFunctions.FirstCpfHolderUnique | rotagourmet/functions/src/index.ts:489-490 | the first holder of a CPF is unique |
| CloudFunctions.LeastIdExists | rotagourmet/functions/src/index.ts:489-490 | every non-empty set of document ids has a first one, so a CPF with a holder has a first holder |
| CloudFunctions.QueryAnswersConflict | rotagourmet/functions/src/index.ts:491 | `!dup.empty && dup.docs[0].id !== uid` holds iff the CPF's first holder is another account |
| CloudFunctions.CpfConflictIff | rotagourmet/functions/src/index.ts:489-494 | the duplicate check refuses iff another account holds the CPF and the caller is not its first holder |
| CloudFunctions.CpfConflictUnderUniqueness | rotagourmet/functions/src/index.ts:489-494 | while CPFs are unique, the check refuses exactly the CPFs another account holds |
| CloudFunctions.DuplicateCpfFirstHolderPasses | rotagourmet/functions/src/index.ts:489-494 | with two accounts "u1" and "u2" holding one CPF, "u1" passes the check although "u2" holds it, and "u2" is refused |
| CloudFunctions.CpfWriteKeepsUnique | rotagourmet/functions/src/index.ts:488-494 | writing a CPF no other account holds keeps CPFs unique across `users_private` |
| CloudFunctions.CpfWriteKeepsUniqueIfUnique | rotagourmet/functions/src/index.ts:488-527 | a CPF write the check lets through keeps CPFs unique whenever they were unique before |
| CloudFunctions.ProfileUpdateKeepsRest | rotagourmet/functions/src/index.ts:580-643 | an accepted client update keeps type, creation time and every key it does not carry, and keeps `nomeLower` in step with `nome` |
| CloudFunctions.ResolveIdOwnAccess | rotagourmet/functions/src/index.ts:542-543 | a client endpoint acts on the caller's own profile iff the id is absent, "me" or the caller's own id |
| CloudFunctions.Backend.constructor | rotagourmet/functions/src/index.ts:10-11 | the store starts with three empty collections and its invariant (no restaurant under the empty id) holds |
| CloudFunctions.Backend.CreateRestaurant | rotagourmet/functions/src/index.ts:77-184 | 405, 401, 400 per check, 409 when the CNPJ is taken, else 201 with the new listing stored under the fresh id; CNPJs stay unique |
| CloudFunctions.Backend.ListRestaurants | rotagourmet/functions/src/index.ts:186-278 | a trimmed non-empty `q` gives a search page, otherwise a browse page, each under the filters and clamped limit |
| CloudFunctions.Backend.Search | rotagourmet/functions/src/index.ts:232-251 | the page of the name-range query, the last name as cursor, `hasMore` iff the page is full |
| CloudFunctions.Backend.Browse | rotagourmet/functions/src/index.ts:253-272 | the page of the newest-first query after the cursor document if it exists, the last id as cursor, `hasMore` iff non-empty and full |
| CloudFunctions.Backend.GetRestaurant | rotagourmet/functions/src/index.ts:280-299 | 400 without id, 404 for a missing document, else 200 with it |
| CloudFunctions.Backend.UpdateRestaurant | rotagourmet/functions/src/index.ts:301-398 | 405, 401, 400 for missing id or body or a failed check, 500 for a missing document, else 204 with the update merged field by field (the intended write, see Findings); other collections untouched |
| CloudFunctions.Backend.DeleteRestaurant | rotagourmet/functions/src/index.ts:400-422 | any signed-in caller gets 204 and the document is gone, existing or not |
| CloudFunctions.Backend.CreateClient | rotagourmet/functions/src/index.ts:446-536 | 409 iff the CPF's first holder by document id is another account, 201 iff every check passes and it is not; both documents are merged; unique CPFs stay unique; any store state is accepted, duplicate CPFs included |
| CloudFunctions.Backend.GetClient | rotagourmet/functions/src/index.ts:538-560 | no caller gives 500, another id 403, a missing profile 404, otherwise 200 with the caller's own profile |
| CloudFunctions.Backend.UpdateClient | rotagourmet/functions/src/index.ts:564-650 | 405, 401, 403 for another id, 400 for a failed check, 409 when a CPF is given whose first holder by document id is another account, else 204 with the private CPF record and the profile merged; nothing changes on failure; unique CPFs stay unique |
| CloudFunctions.Backend.DeleteClient | rotagourmet/functions/src/index.ts:653-677 | the caller's public and private documents are both removed |
| ClientService.Compacted | rotagourmet/services/saveClient.ts:9-17 | the compacted object keeps exactly the entries whose value is neither "" nor undefined |
| ClientService.CompactObject | rotagourmet/services/saveClient.ts:9-17 | the loop computes that compacted object, in key order |
| ClientService.CompactedAppend | rotagourmet/services/saveClient.ts:11-15 | compaction works entry by entry, in order |
| ClientService.CompactedOfKept | rotagourmet/services/saveClient.ts:13 | an object without empty values is unchanged |
| ClientService.CompactedIdempotent | rotagourmet/services/saveClient.ts:9-17 | compacting twice is compacting once |
| ClientService.CompactedKeepsFalsyValues | rotagourmet/services/saveClient.ts:13 | null, false, 0 and [] survive; only "" and undefined are dropped |
| ClientService.Str | rotagourmet/services/saveClient.ts:6 | null and undefined become "" |
| ClientService.StrIdempotent | rotagourmet/services/saveClient.ts:6 | `str` of its own result is unchanged and never starts or ends with whitespace |
| ClientService.Digits | rotagourmet/services/saveClient.ts:5 | the normalised value is digits only |
| ClientService.KeepTruthy | rotagourmet/services/saveClient.ts:71 | `filter(Boolean)` keeps exactly the non-empty preferences |
| ClientService.KeepTruthyIdempotent | rotagourmet/services/saveClient.ts:71 | filtering twice is filtering once |
| ClientService.AllergiesValue | rotagourmet/services/saveClient.ts:72 | `alergias` is null iff the raw text is all whitespace; otherwise it is a non-empty string with no whitespace at either end, so compaction keeps it |
| ClientService.SaveClient | rotagourmet/services/saveClient.ts:35-94 | fails with the first failing check in source order, else yields the public and private documents |
| ClientService.PrivateDocShape | rotagourmet/services/saveClient.ts:77-81 | an accepted save writes exactly an 11-digit cpf and the two timestamps privately |
| ClientService.AddressEntries | rotagourmet/services/saveClient.ts:56-63 | each address key is stored iff its value is non-empty |
| ClientService.AddressShape | rotagourmet/services/saveClient.ts:43-63 | an accepted save always stores an 8-digit cep, the uf and the município |
| ClientService.PublicNameEntries | rotagourmet/services/saveClient.ts:65-75 | type, name and lower-case name are always kept, the phone iff non-empty |
| ClientService.PublicOtherEntries | rotagourmet/services/saveClient.ts:65-75 | address, preferences, allergies and both timestamps are always kept |
| ClientService.PublicDocNames | rotagourmet/services/saveClient.ts:40-75 | the public document has the trimmed name, its lower-case form, and the phone exactly when it has digits |
| Registration.PatchAddressKeys | rotagourmet/hooks/useRegistration.tsx:178 | the nested address merge: present keys win, absent keys stay |
| Registration.PatchAddressCompose | rotagourmet/hooks/useRegistration.tsx:178 | two address patches in a row equal one combined patch |
| Registration.ClientBasicsMerge | rotagourmet/hooks/useRegistration.tsx:174-180 | `setClientBasics` replaces the given top-level keys and merges the address |
| Registration.ClientBasicsCompose | rotagourmet/hooks/useRegistration.tsx:174-180 | two successive patches equal one combined patch |
| Registration.ClientSettersIdentityAndIdempotence | rotagourmet/hooks/useRegistration.tsx:174-184 | an empty patch changes nothing and repeating a patch changes nothing more |
| Registration.BasicsSettersAgree | rotagourmet/hooks/useRegistration.tsx:186-192 | the restaurant basics setter behaves as the client one on the shared keys and sets cnpj when given |
| Registration.OperationalReplacesNested | rotagourmet/hooks/useRegistration.tsx:198-200 | the operational setter replaces nested maps whole: a day missing from a new `horarios` map is gone |
| Registration.RestaurantSettersIdentityAndIdempotence | rotagourmet/hooks/useRegistration.tsx:186-200 | the restaurant setters have no effect with an empty patch and are idempotent |
| Registration.SettersOnDifferentSlicesCommute | rotagourmet/hooks/useRegistration.tsx:159-200 | setters of different state slices commute |
| Registration.ResetForgetsHistory | rotagourmet/hooks/useRegistration.tsx:202-209 | whatever happened before a reset, the state afterwards depends only on what follows it |
| Registration.InitialOperationalShape | rotagourmet/hooks/useRegistration.tsx:124-153 | the initial operational state has all seven days closed, each open 08:00–22:00, no queues, no menu, prices 0 |
| RestaurantService.RunEnd | rotagourmet/services/saveRestaurant.ts:9 | the end of the maximal `\w` run starting at a position |
| RestaurantService.MatchIsWholeRun | rotagourmet/services/saveRestaurant.ts:9 | `\.(\w+)(?:\?\|#\|$)` matches at a dot iff the whole word run after it is followed by `?`, `#` or the end |
| RestaurantService.FindExt | rotagourmet/services/saveRestaurant.ts:9 | finds the leftmost position where the pattern matches, or reports none |
| RestaurantService.GuessExt | rotagourmet/services/saveRestaurant.ts:7-11 | the guess is "" or a dot followed by lower-case word characters |
| RestaurantService.GuessExtIsLeftmostMatch | rotagourmet/services/saveRestaurant.ts:7-11 | the guess is non-empty iff the pattern matches, and then it is the lower-cased capture of the leftmost match |
| RestaurantService.GuessExtOfNothing | rotagourmet/services/saveRestaurant.ts:8 | no name gives "" |
| RestaurantService.GuessExtQuery | rotagourmet/services/saveRestaurant.ts:9-10 | "a.JPG?x" gives ".jpg" |
| RestaurantService.GuessExtLastDot | rotagourmet/services/saveRestaurant.ts:9 | "a.b.c" gives ".c" |
| RestaurantService.GuessExtNoDot | rotagourmet/services/saveRestaurant.ts:9 | a content URI without a dot gives "" |
| RestaurantService.ExtensionFallbacks | rotagourmet/services/saveRestaurant.ts:99-110 | the logo falls back to ".jpg"; the menu uses the name's guess, then the URI's, then ".pdf" |
| RestaurantService.SaveRestaurant | rotagourmet/services/saveRestaurant.ts:61-127 | fails iff nobody is signed in, else creates the base document and collects the URL writes, writing again iff there is one |
| RestaurantService.BaseDocShape | rotagourmet/services/saveRestaurant.ts:66-91 | the created document copies the basics, details and operational input, is owned by the caller, is active and has no URLs yet |
| RestaurantService.UrlWritesShape | rotagourmet/services/saveRestaurant.ts:99-114 | a logo URL is written iff there is a logo, a menu URL iff there is a menu, and nothing else |
| RestaurantService.BothWrites | rotagourmet/services/saveRestaurant.ts:99-114 | with both files, the logo URL comes first, then the menu URL, each at its storage path |
| RestaurantService.MergeSetLiteralKeepsDoc | rotagourmet/services/saveRestaurant.ts:122-124 | as written, the merging set leaves the nested document untouched except `updatedAt` and adds the dotted keys as top-level fields |
| RestaurantService.UrlsMissNestedFields | rotagourmet/services/saveRestaurant.ts:97-124 | as written, after a save with both files the nested `logoUrl` and `cardapioUrl` are still null |
| RestaurantService.UrlsReachNestedFields | rotagourmet/services/saveRestaurant.ts:97-114 | writing by field path puts the URLs into the nested fields |
| RestaurantService.FinalDocFields | rotagourmet/services/saveRestaurant.ts:66-124 | the saved document has a logo URL iff a logo was given, a menu URL iff a menu was given, and otherwise equals the base document |
| OperationalForm.Pad2 | rotagourmet/app/screens/registerrestaurantoperational.tsx:57 | two zero-padded digits denoting the number |
| OperationalForm.ValidarHorarioIsClockTime | rotagourmet/app/screens/registerrestaurantoperational.tsx:57 | `validarHorario` accepts exactly the zero-padded times 00:00 to 23:59 |
| OperationalForm.ValidarHorarioExamples | rotagourmet/app/screens/registerrestaurantoperational.tsx:57 | "08:00", "23:59" and "00:00" pass; "24:00", "9:00" and "12:60" do not |
| OperationalForm.PressNextSpec | rotagourmet/app/screens/registerrestaurantoperational.tsx:59-73 | "next" navigates iff a service and a day are chosen, a menu is picked and both times are valid; it is disabled iff the first three fail |
| OperationalForm.ClosingBeforeOpeningAccepted | rotagourmet/app/screens/registerrestaurantoperational.tsx:64-73 | closing before opening is not checked |
| OperationalForm.InitialScreenDisabled | rotagourmet/app/screens/registerrestaurantoperational.tsx:31-48 | the screen starts disabled with two inactive queues |
| OperationalForm.ToggleDiaSpec | rotagourmet/app/screens/registerrestaurantoperational.tsx:86-87 | toggling flips one day, leaves the others, opens an unknown day, and toggling a known day twice restores the map |
| OperationalForm.ToggleDiaOpensDay | rotagourmet/app/screens/registerrestaurantoperational.tsx:86-87 | toggling a closed day makes some day open |
| OperationalForm.AdicionarFilaSpec | rotagourmet/app/screens/registerrestaurantoperational.tsx:88-92 | adding appends one inactive, non-editing queue named "Fila n" with n the new length |
| OperationalForm.AdicionarFilaFromInitial | rotagourmet/app/screens/registerrestaurantoperational.tsx:88-92 | adding twice to the initial list gives Fila 1 to Fila 4 |
| OperationalForm.QueueNamesCanRepeat | rotagourmet/app/screens/registerrestaurantoperational.tsx:88-102 | renaming and adding can produce two queues with the same name |
| OperationalForm.RowUpdatersTouchOneRow | rotagourmet/app/screens/registerrestaurantoperational.tsx:93-102 | each row updater changes only the indexed row, and only the intended field of it; an index out of range changes nothing |
| OperationalForm.RowUpdatersInvolutions | rotagourmet/app/screens/registerrestaurantoperational.tsx:93-102 | toggling twice restores the list; the last rename wins |
| FinalStep.IndexOf | rotagourmet/app/screens/registerfinal.tsx:52 | the first occurrence of a character at or after a position |
| FinalStep.ValidateEmailIsShape | rotagourmet/app/screens/registerfinal.tsx:51-53 | `validateEmail` holds iff the text is a non-empty local part, `@`, and a domain with an inner dot, with no whitespace and no other `@` |
| FinalStep.EmailShapeValid | rotagourmet/app/screens/registerfinal.tsx:52 | every `a@b.c` with non-empty whitespace-free parts passes |
| FinalStep.ValidateEmailExamples | rotagourmet/app/screens/registerfinal.tsx:52 | "ana@rota.com" passes; "ana@rota", "@rota.com" and "ana@@rota.com" do not |
| FinalStep.FirstLineLength | rotagourmet/app/screens/registerfinal.tsx:57 | the length of the text before its first line terminator |
| FinalStep.ValidatePasswordFirstLineOnly | rotagourmet/app/screens/registerfinal.tsx:55-58 | "Rota1@" passes; "rota\n1@" fails because the lookaheads do not cross a line break |
| FinalStep.ValidatePasswordCountsCodeUnits | rotagourmet/app/screens/registerfinal.tsx:55-58 | the length is counted in UTF-16 code units: "a1@" followed by two emoji is five characters but seven code units, and passes |
| FinalStep.FinishCheckOrder | rotagourmet/app/screens/registerfinal.tsx:47-90 | with the button enabled, a bad e-mail is reported first, then a weak password; the mismatch message never shows; the account is created iff both pass |
| FinalStep.SaveClientOnlyWhenComplete | rotagourmet/app/screens/registerfinal.tsx:93-119 | `saveClient` is called iff the type is client and name, CPF, CEP, uf and município are non-empty; the payload then carries those five values and the phone, street, district, number and preferences from the wizard, and its allergies are null iff the notes are empty and the notes otherwise |
| FinalStep.BlankNameReachesSaveClient | rotagourmet/app/screens/registerfinal.tsx:90-107 | a name of one space passes the completeness check after the account is created |
| FinalStep.BlankNameRefusedBySaveClient | rotagourmet/services/saveClient.ts:36-51 | and `saveClient` then refuses it, leaving an account without a profile |
| FinalStep.ErrorMessageSpec | rotagourmet/app/screens/registerfinal.tsx:128-136 | the message is never empty; the three known codes map to their messages, a message mentioning invalid-argument maps to the invalid-data message, and otherwise the error's own message or the default is shown |
| FinalStep.ErrorMessageExamples | rotagourmet/app/screens/registerfinal.tsx:128-136 | a plain message is shown as is, an empty one becomes the default, and "INVALID-ARGUMENT" matches case-insensitively |
| Consistency.ScreenTimesAreBackendTimes | rotagourmet/functions/src/index.ts:69-71 | every time the screen accepts passes the backend, but "24:00", "99:99" and "12:60" pass the backend only |
| Consistency.CreateAcceptsWrongCheckDigit | rotagourmet/functions/src/index.ts:117-120 | the backend stores a CNPJ whose check digit `isValidCNPJ` rejects |
| Consistency.NameCursorSkipsTies | rotagourmet/functions/src/index.ts:232-251 | a same-name restaurant that missed a full page is not admitted by the next page's query |
| Consistency.TiedPizzasScenario | rotagourmet/functions/src/index.ts:232-236 | two restaurants named "Pizza" are both found, but after the cursor "Pizza" neither is |

## Left out

- Network I/O, authentication and the HTTP plumbing (CORS, the `OPTIONS` answer, the thrown-error catch blocks that answer 500) are not modelled. The verified caller is a parameter.
- Uploads to blob storage and `fetch` of local files are left out, and so is the upload-failure branch of `saveRestaurant` (it rethrows). The download URL is a function parameter.
- The batch and transaction commits are not modelled, and neither are races between the duplicate checks and the writes. Each handler is taken to run alone.
- Numbers are whole (`int`). `Number(...)` on non-numeric text, `NaN` and `isFinite` are not modelled, and a `limit` that is not a finite number is given as absent.
- Explicit `undefined` values inside spread patches are not modelled. An absent key and an `undefined` value are the same `None`.
- `toLowerCase` is modelled for ASCII only: letters outside ASCII keep their case.
- CloudFunctions.Backend.UpdateRestaurant: stores the field-by-field merge (`Documents.MergeUpdates`), the evidently intended write, not what `update()` at index.ts:390 does with the nested maps as written. The as-written replace is `Documents.ReplaceUpdates`. `Documents.ReplaceLosesSiblingKeys` shows where the two differ, and `Documents.ReplaceAgreesOnFullUpdates` shows they agree whenever every nested map of the update is complete.
- React rendering, navigation, modals, the price slider and the document picker are left out. The picked menu is a field of the screen state.
- Browse-mode pagination after a deleted cursor document is covered only through `Backend.Browse` (the query then starts from the top).
- ClientService.PublicDocNames: states only the name and phone entries of the whole public document. The other entries are stated by ClientService.PublicOtherEntries over the same field list, because unfolding the full nine-entry document in one proof is too costly.

## Findings

| source | as written | input that shows it | evidently intended | confidence | as-written member | corrected member |
|---|---|---|---|---|---|---|
| rotagourmet/functions/src/index.ts:332-390 | `update(updates)` with a nested `endereco`/`servicos`/`horario`/`preco` object built from only the keys the body has replaces the whole stored map | PATCH body `{"endereco": {"bairro": "Centro"}}` on a restaurant with a full address: its cep, logradouro, numero, município and uf are erased | only the sub-keys present change (the spreads skip absent keys, which only matters under a merge) | not executed; medium | Documents.ReplaceLosesSiblingKeys | Documents.MergeUpdatesFields |
| rotagourmet/services/saveRestaurant.ts:97-124 | `setDoc(..., {merge: true})` with keys `"details.logoUrl"` and `"operational.cardapioUrl"` creates top-level fields with those literal dotted names | a save with a logo and a menu: the nested `details.logoUrl` and `operational.cardapioUrl` stay null | fill the nested fields the base document left null for this purpose | not executed; high | RestaurantService.UrlsMissNestedFields | RestaurantService.UrlsReachNestedFields |
