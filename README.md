# PlaceApp client logic in Dafny

PlaceApp is a React Native (Expo Router) client for finding places, reviewing
them and collecting them into lists. Most of the app is screen markup and
HTTP calls. This project models the client-side logic that decides
something:

- the root layout's navigation gate (`app/_layout.tsx`), which redirects to
  `/home` or `/login` based on the session;
- the authentication store (`src/context/AuthContext.tsx`), which holds the
  token, the loading flag, the shared HTTP client's `Authorization` header
  and the persisted `userToken` entry;
- the form guards and submit handlers of the settings, new-list,
  suggest-a-place and avatar screens, and of the rating and add-to-list
  dialogs;
- the achievements board's goal table and its unlock rule.

Each HTTP request and each AsyncStorage call is a parameter. An `Outcome<T>`
says whether the request resolved, with its value, or rejected, with a
`Failure`. An `IoStatus` says whether a storage call succeeded. Alerts are
returned as tags (`Notice`). `router.back()` and `router.push()` are
returned as flags or paths. A dialog's call to `onClose` sets its
`closeRequested` field.

Pure logic is written as functions: the gate, the guards, the payloads and
the goal table. Components whose handlers change state step by step are
classes. Their fields mirror the source's `useState` slots, and
their methods state the whole new state.

Where the screens and the store disagree, this model follows the screens'
use of `useAuth()`. `configuracoes.tsx` and `selecionar-avatar.tsx` read
`user` and `updateUser` from it, but the store declares neither in its
context type (src/context/AuthContext.tsx:8-16) and supplies neither in
its provider value (src/context/AuthContext.tsx:72-78). Here the user is an
optional record (`Session.User`) held by each screen that uses it, and
`updateUser` replaces that record.

Modules, one per file: `Outcomes` (outcomes.dfy), `Text` (text.dfy,
JavaScript's `trim`), `Gate`, `Session`, `Settings`, `CreateList`,
`Suggest`, `AvatarPicker`, `RatingModal`, `AddToListModal`, `Achievements`.

## Model

| member | source | states |
|---|---|---|
| Text.TrimStart | app/criarLista.tsx:24 | the result is the suffix of the input that starts at its first visible character; everything dropped is whitespace |
| Text.TrimEnd | app/criarLista.tsx:24 | the result is the prefix of the input that ends at its last visible character; everything dropped is whitespace |
| Text.Trim | app/criarLista.tsx:24 | `trim()` never lengthens the string and leaves no whitespace at either end |
| Text.TrimCutsBlankEnds | app/criarLista.tsx:24 | `s` is a blank head, then `s.trim()`, then a blank tail: `trim` removes whitespace from the two ends and changes nothing else |
| Text.TrimStartCut | app/criarLista.tsx:24 | what `TrimStart` drops is all whitespace and, put back in front of the result, gives `s` again |
| Text.TrimEndCut | app/criarLista.tsx:24 | what `TrimEnd` drops is all whitespace and, put back after the result, gives `s` again |
| Text.TrimEmptyIffBlank | app/sugerir-estabelecimento.tsx:27 | `s.trim() === ''` holds exactly when every character of `s` is whitespace |
| Gate.Decide | app/_layout.tsx:15-41 | while loading there is no navigation; once loaded, the gate stays exactly when the route fits the session (signed in: neither login/register nor `/`; signed out: login/register), and a replace targets `/home` when signed in, `/login` otherwise |
| Gate.InAuthGroup | app/_layout.tsx:20 | on a login or register screen exactly when some segment is `login` or `register` |
| Gate.IsAtRoot | app/_layout.tsx:21 | at the root exactly when there are no segments; the root is never in the auth group |
| Gate.SettlesInOneStep | app/_layout.tsx:24-39 | after following the gate's redirect, running the decision again on the new route gives no navigation, and the route fits the session |
| Gate.RootAlwaysRedirects | app/_layout.tsx:20-37 | the empty root route is always replaced: by `/home` when signed in, by `/login` when not (the root is not in the auth group) |
| Session.AuthStore.constructor | src/context/AuthContext.tsx:23-24 | the provider starts with no token and `isLoading` true |
| Session.AuthStore.IsAuthenticated | src/context/AuthContext.tsx:74 | `!!token`: authenticated exactly when a non-empty token is held |
| Session.AuthStore.LoadToken | src/context/AuthContext.tsx:28-41 | loading ends whether or not the read succeeded; a non-empty stored `userToken` becomes the token and arms the header with `Bearer <token>`; otherwise both are left as they were; storage is not written |
| Session.AuthStore.Login | src/context/AuthContext.tsx:46-58 | a rejected request is rethrown unchanged and touches neither token, header nor storage; a resolved one sets the token and header and stores `userToken`; a failed write is rethrown but leaves the token and header set |
| Session.AuthStore.Logout | src/context/AuthContext.tsx:61-69 | the token and header are cleared and the user is not authenticated; `userToken` is removed unless the removal fails, and that failure is swallowed |
| Session.RestartAfterLogin | src/context/AuthContext.tsx:28-58 | a token stored by a successful login is loaded back by a new provider over the same storage, and authenticates exactly when it is non-empty |
| Session.RestartAfterLogout | src/context/AuthContext.tsx:28-69 | after logout and a restart the user is signed out, unless the removal failed while a non-empty token was stored, in which case they are signed back in |
| Session.RejectedLogin | src/context/AuthContext.tsx:46-58 | from a signed-out start, a rejected login surfaces the request's own failure, leaves the user signed out and persists nothing |
| Settings.NameAccepted | app/configuracoes.tsx:35-38 | a rename is sent exactly when the name has a visible character and its trimmed form differs from the current user's `nome` |
| Settings.InitialName | app/configuracoes.tsx:25 | the name field starts as the user's name, or empty without a user |
| Settings.CheckPassword | app/configuracoes.tsx:56-67 | a password is sent exactly when both fields are non-blank, equal as typed and at least 6 long; a blank field is reported before a mismatch, and a mismatch before shortness |
| Settings.SettingsScreen.constructor | app/configuracoes.tsx:25-31 | the name field starts as the user's name (or empty); the password fields start empty; neither flag is set |
| Settings.SettingsScreen.SaveName | app/configuracoes.tsx:34-52 | a refused name sends nothing; otherwise the trimmed name is sent, a success replaces the user with the server's `usuario`, a failure keeps it; `loadingNome` ends false; only `user` and `loadingNome` may change, so the name and password fields are kept |
| Settings.SettingsScreen.SavePassword | app/configuracoes.tsx:55-83 | the alert follows the guard's order; only an accepted password is sent; a success clears both fields, a failure keeps them; `loadingSenha` ends false; only the two password fields and `loadingSenha` may change, so the user and the name field are kept |
| CreateList.NameGiven | app/criarLista.tsx:24-27 | a list is created only when its name has a visible character |
| CreateList.Payload | app/criarLista.tsx:32-36 | the request carries the name as typed (untrimmed), the public switch and no establishments |
| CreateList.FailureNotice | app/criarLista.tsx:45-50 | a failed save shows the server's `message` when the error has a response, and a fixed text otherwise |
| CreateList.CreateListScreen.constructor | app/criarLista.tsx:18-20 | the name is empty, the list starts private and nothing is loading |
| CreateList.CreateListScreen.Save | app/criarLista.tsx:23-52 | a blank name sends nothing; otherwise the payload is sent, the screen goes back only on success, the failure alert follows `FailureNotice`, and `isLoading` ends false |
| Suggest.RequiredFilled | app/sugerir-estabelecimento.tsx:27-30 | a suggestion is sent exactly when both the name and the address have a visible character; the category plays no part |
| Suggest.SuggestScreen.constructor | app/sugerir-estabelecimento.tsx:19-22 | all fields start empty and nothing is loading |
| Suggest.SuggestScreen.Submit | app/sugerir-estabelecimento.tsx:25-56 | a request goes out exactly when name and address are non-blank (an empty category never blocks); it carries name and address as typed and the category as `subcategoria`; the screen goes back only on success; `loading` ends false |
| AvatarPicker.AvatarsAreDistinct | app/selecionar-avatar.tsx:19-29 | the grid offers nine distinct names, `default.png` first |
| AvatarPicker.InitialSelection | app/selecionar-avatar.tsx:47 | the first selection is the user's non-empty `avatar_id`; with no user, no `avatar_id` or an empty one it is exactly `default.png` |
| AvatarPicker.IsCurrent | app/selecionar-avatar.tsx:51 | a selection is current only when it equals the user's `avatar_id`; without a user or an `avatar_id` nothing is current |
| AvatarPicker.InitialSelectionIsCurrentIff | app/selecionar-avatar.tsx:47-54 | saving without tapping skips the request exactly when the user has a non-empty avatar; otherwise the pending selection is exactly `default.png`, which is what Save sends |
| AvatarPicker.AvatarScreen.constructor | app/selecionar-avatar.tsx:44-48 | the screen starts on `InitialSelection(user)`, not loading |
| AvatarPicker.AvatarScreen.Tap | app/selecionar-avatar.tsx:83-89 | a tap selects the tapped tile's name, which is one of the grid's names |
| AvatarPicker.AvatarScreen.Save | app/selecionar-avatar.tsx:50-69 | re-saving the current avatar only goes back, with no request; otherwise the selection is sent; a success replaces the user and goes back, a failure stays; `loading` ends false |
| RatingModal.Ratings | components/AvaliacaoModal.tsx:63 | the rating buttons offer exactly the values 1 to 5 |
| RatingModal.NoRating | components/AvaliacaoModal.tsx:31 | no rating counts as none chosen, and every offered rating 1..5 counts as chosen |
| RatingModal.SubmitDisabled | components/AvaliacaoModal.tsx:107 | the submit button is enabled exactly when not loading and a non-zero rating is chosen |
| RatingModal.SubmitDecision | components/AvaliacaoModal.tsx:29-38 | a missing rating alerts; `onSubmit` is called exactly when the submit button is enabled (not loading, rating chosen), with the current rating and comment |
| RatingModal.RatingDialog.constructor | components/AvaliacaoModal.tsx:26-27 | the dialog starts with no rating and an empty comment |
| RatingModal.RatingDialog.Choose | components/AvaliacaoModal.tsx:72 | pressing a button sets the rating to its value |
| RatingModal.RatingDialog.Submit | components/AvaliacaoModal.tsx:29-38 | the handler acts as `SubmitDecision` says, and any submitted rating lies in 1..5 |
| RatingModal.RatingDialog.Close | components/AvaliacaoModal.tsx:41-45 | closing clears the rating and comment and calls `onClose` |
| AddToListModal.RenderContent | components/AdicionarListaModal.tsx:90-120 | the spinner exactly while loading, else the empty text exactly when there are no lists, else one row per list; the rows are disabled exactly when the id being sent is truthy |
| AddToListModal.Truthy | components/AdicionarListaModal.tsx:110 | an id being sent counts as truthy exactly when it is present and is neither `""` nor `0` |
| AddToListModal.ZeroIdLeavesRowsEnabled | components/AdicionarListaModal.tsx:110 | while id `0` is being sent the rows stay enabled, while a non-empty string id disables them |
| AddToListModal.ListPicker.constructor | components/AdicionarListaModal.tsx:34-36 | no lists, not loading, nothing being sent |
| AddToListModal.ListPicker.VisibleChanged | components/AdicionarListaModal.tsx:40-48 | a fetch starts exactly when the dialog becomes visible, and it turns the spinner on |
| AddToListModal.ListPicker.FetchSettled | components/AdicionarListaModal.tsx:49-59 | a success replaces the lists and raises no alert; a failure alerts "could not load", keeps the lists and closes the dialog; the spinner goes off |
| AddToListModal.ListPicker.PressList | components/AdicionarListaModal.tsx:63-69 | pressing an enabled row records its id as the one being sent and posts that list id with the establishment id |
| AddToListModal.ListPicker.AddSettled | components/AdicionarListaModal.tsx:70-79 | a success alerts "added" and closes the dialog, a failure alerts "could not add" and keeps it open; nothing is being sent afterwards |
| AddToListModal.ListPicker.CreateNewList | components/AdicionarListaModal.tsx:84-87 | the dialog is closed and `/criarLista` is pushed |
| Achievements.GoalTablesWellFormed | app/conquistas.tsx:24-36 | both goal tables are strictly increasing and ask for at least 1; 4 review goals, 3 list goals |
| Achievements.CountOrZero | app/conquistas.tsx:50-51 | a count the server sends is kept, and a missing one becomes 0 |
| Achievements.StatsFrom | app/conquistas.tsx:49-52 | both counts of the stats are defaulted this way |
| Achievements.IsUnlocked | app/conquistas.tsx:65 | a count below the goal is locked, a count that reaches the goal is unlocked |
| Achievements.CaptionAsWritten | app/conquistas.tsx:79 | as the screen writes it: "Concluído!" exactly when unlocked, and otherwise exactly `Progress(Reviews, count, meta)`: a progress line that asks for reviews, in both sections |
| Achievements.ListCaptionAsksForReviews | app/conquistas.tsx:117-125 | the list section's first badge, with no list yet, reads "Faça 1 avaliações (0/1)" |
| Achievements.CaptionFor | app/conquistas.tsx:79 | "Concluído!" exactly when `count >= meta`, otherwise the progress `count/meta` naming the badge's own category |
| Achievements.Badges | app/conquistas.tsx:64-84 | one badge per goal in table order, with the goal's name, unlocked exactly when `count >= meta`, with the corrected caption `CaptionFor` (see ## Findings) |
| Achievements.SectionsUseTheirOwnCount | app/conquistas.tsx:107-125 | review badges are judged by `reviewsCount`, list badges by `listsCount` |
| Achievements.IncreasingIsTransitive | app/conquistas.tsx:24-36 | in a strictly increasing table every later goal asks for more than every earlier one |
| Achievements.UnlockedIsPrefixClosed | app/conquistas.tsx:65 | if a badge is unlocked, so is every smaller badge before it in its section |
| Achievements.UnlockIsMonotone | app/conquistas.tsx:65 | a larger count never locks a badge that a smaller count unlocked |
| Achievements.ZeroUnlocksNothing | app/conquistas.tsx:24-36 | with count 0 no badge is unlocked and every caption shows progress |
| Achievements.EmptyStatsUnlockNothing | app/conquistas.tsx:49-52 | when the server sends no counts, every badge of both sections is locked |
| Achievements.View | app/conquistas.tsx:86-126 | the spinner exactly while loading or without stats; otherwise the two sections of badges, with the corrected caption `CaptionFor` (see ## Findings) |
| Achievements.FetchedStats | app/conquistas.tsx:44-58 | stats are set exactly when the fetch succeeds, from the defaulted counts |
| Achievements.FetchNotice | app/conquistas.tsx:53-56 | the "could not load" alert is raised exactly when the fetch leaves no stats |
| Achievements.FailedFetchKeepsSpinner | app/conquistas.tsx:53-93 | after a failed fetch the screen shows the spinner for good: loading is over, but there are no stats |

## Findings

| source | as written | input that shows it | evidently intended | confidence | as-written member | corrected member |
|---|---|---|---|---|---|---|
| app/conquistas.tsx:79 | the locked caption is always "Faça <meta> avaliações (<count>/<meta>)", in the list section too | `listsCount` 0, goal "Colecionador" (meta 1): the caption reads "Faça 1 avaliações (0/1)" and asks for reviews | a list badge asks the user to create lists | medium, not executed | Achievements.CaptionAsWritten | Achievements.CaptionFor |

`Achievements.ListCaptionAsksForReviews` shows the as-written caption on
the input above. `Achievements.Badges` uses the corrected caption.

## Left out

- HTTP (axios, src/services/api.ts): every request is an outcome parameter. The base-URL choice by platform is configuration. A request that never settles is not modelled.
- The asynchrony of AsyncStorage, and interleavings between async operations, such as a `login` racing the startup `loadToken`.
- Rendering, styles, icons, `Alert`/`console` calls and the `Modal` itself. Alerts are returned as tags. `onClose` and `onSubmit` belong to the parent component and appear only as the `closeRequested` flag or a returned action.
- The login request body (`email`, `senha`) and the login screen's own handling of a rethrown error. Only the response's `token` field is modelled; a response without one is not.
- Session.AuthStore.Login: the user record the server also returns is not stored, because the store shown keeps only the token.
- Settings.SettingsScreen.SaveName, AvatarPicker.AvatarScreen.Save: with the store as shown, `user` and `updateUser` are `undefined`, so the name field starts empty, the avatar starts as `default.png`, and `updateUser(response.data.usuario)` throws inside the `try`: a successful request shows the failure alert and the avatar screen does not go back. The model instead describes the screens as their use of `useAuth()` intends, with a working `updateUser`.
- Settings.SettingsScreen.SaveName, Settings.SettingsScreen.SavePassword, CreateList.CreateListScreen.Save, Suggest.SuggestScreen.Submit, AvatarPicker.AvatarScreen.Save: each is one step from press to settled request, so the `true` value of the loading flag while the request is in flight is not stated. While the flag is set the settings, suggestion and avatar buttons are `disabled`, and the create-list button is replaced by a spinner (app/criarLista.tsx:82-88), so none can be pressed again; that is why each requires the flag to be false.
- Settings.CheckPassword: Dafny characters are Unicode code points, while JavaScript strings are UTF-16 code units, so `|novaSenha|` stands for `novaSenha.length` (app/configuracoes.tsx:64) only for characters inside the Basic Multilingual Plane.
- AddToListModal.Truthy: `NaN` ids are not modelled (integers only).
- app/index.tsx (a spinner), constants/Colors.ts (a palette), app/meus-favoritos.tsx and app/minhas-avaliacoes.tsx (fetch and render, plus number and date formatting) and components/ProfileMenuModal.tsx (a static menu with a stub handler) are not part of this model.
- Framework hooks (`useEffect` dependency tracking, `useSegments`, image `require`s) are not modelled. The gate is a function of the session flags and the segments, so it cannot depend on anything else.
