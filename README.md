# StockIt client logic in Dafny

StockIt is a mobile client with which technicians keep a personal stock of spare parts. It
lets them:
- record each use of a part against a client, a machine type and a consumption type;
- transfer parts to colleagues;
- browse and filter their usage history and send reports;
- register, recover a password and sign in.

Stock arithmetic and storage live on a server. The client's own logic is what this project
models:
- the form engines with their autocomplete panels, keystroke guards and ordered submission
  checks;
- the reconciliation of the cached stock lists after a removal or a transfer;
- the order-preserving filters;
- the toast classifier;
- the URL builder, the registration and recovery validators and the session store.

Every server reply, authentication state and storage failure is a parameter of the modelled
handler. A screen's React state variables become the fields of a class, and each handler
becomes a method. The method's contract ties the new state to pure functions, and the
properties the screens promise are proved as lemmas about those functions.

Modules:
- `Wrappers`, `Seqs`, `Text`, `Numbers`: shared helpers.
  - `Seqs` covers order-preserving filtering, mapping and first-match search.
  - `Text` covers JavaScript `trim`, `toLowerCase`, `startsWith`, `includes` and string
    order.
  - `Numbers` covers digit strings and the quantity parser.
- `Email`: the email pattern shared by registration and recovery.
- `Config`: the API base URL and URL joining.
- `Toasts`: the `useToast` hook.
- `Session`: the authentication context.
- `Inventory`: stock entries and the list patches applied after server replies.
- `Autocomplete`: the suggestion filter and the option keystroke guard.
- `RecordUsage`: the usage form.
- `PartsStock`: the add-part form.
- `StockView`: the stock browser with removal and transfer.
- `UsageHistory`: the usage history screen.
- `Registration`: the registration screen.
- `PasswordRecovery`: the password-recovery screen.

## Model

| member | source | states |
|---|---|---|
| Config.CurrentEnvironment | config/config.js:34-39 | the environment is "development" exactly when the build flag is defined and true, otherwise "production" |
| Config.ApiUrlMatchesEnvironment | config/config.js:3-19 | the selected API URL is the URL the environment table gives for the reported environment |
| Config.JoinUrl | config/config.js:30-32 | the result starts with the base and has a '/' right after it; an endpoint with a leading '/' is appended verbatim, any other gets exactly one '/' inserted |
| Config.GetApiUrl | config/config.js:30-32 | every built URL has the API URL as a prefix |
| Config.JoinUrlLeadingSlash | config/config.js:31 | for a path without a leading '/', adding one does not change the built URL |
| Toasts.FirstMatch | hooks/useToast.js:15-56 | no type is found exactly when no rule's pattern matches; a found type comes from a matching rule |
| Toasts.ResolveType | hooks/useToast.js:10-14 | a non-empty explicit type is used unchanged; otherwise the message is classified |
| Toasts.FirstMatchAppend | hooks/useToast.js:15-56 | the first match in two concatenated tables is the first table's match if it has one, else the second's |
| Toasts.FirstMatchTagged | hooks/useToast.js:15-56 | a table tagged with one type yields that type exactly when some pattern matches |
| Toasts.ClassifyErrorIff | hooks/useToast.js:15-36 | a message is classified as an error iff it matches some error rule (the error rules are checked first, so a message matching both tables is an error) |
| Toasts.ClassifyIsErrorOrSuccess | hooks/useToast.js:37-56 | a derived type is always "error" or "success" (unmatched messages default to success) |
| Toasts.UsageRecordedHasNoErrorKeyword | hooks/useToast.js:21-33 | the lower-cased usage-recorded message contains none of the error keywords |
| Toasts.UsageRecordedLacksChars | hooks/useToast.js:21-33 | the lower-cased usage-recorded message contains none of the listed error fragments |
| Toasts.ClassifyUsageRecorded | hooks/useToast.js:15-56 | "Uso registrado con éxito" is classified as success |
| Toasts.ClassifyConnectionFailure | hooks/useToast.js:15-36 | "No se pudo conectar al servidor" is classified as error |
| Toasts.ClassifyNothingToSend | hooks/useToast.js:15-36 | "No hay registros nuevos para enviar" is classified as error through the "no hay" keyword |
| Toasts.Toast.constructor | hooks/useToast.js:4-8 | a new toast is hidden, with an empty message and the success type |
| Toasts.Toast.ShowToast | hooks/useToast.js:10-60 | the toast becomes visible with the given message and the resolved type |
| Toasts.Toast.HideToast | hooks/useToast.js:62-64 | the toast becomes invisible; only the visibility field may change, so message and type stay |
| Session.RestoreAfterLogin | context/AuthContext.js:17-25 | restoring after a successful sign-in with a non-empty token and user yields that token and user, and other keys are untouched |
| Session.RestoreAfterLogout | context/AuthContext.js:17-25 | restoring after a sign-out whose first removal succeeds yields no session |
| Session.FailedLoginKeepsStoredSession | context/AuthContext.js:33-42 | when the first write of a sign-in fails, restoring sees the same session as before |
| Session.AuthSession.constructor | context/AuthContext.js:8-10 | the context starts with no user, no token and loading set |
| Session.AuthSession.VerificarSesionGuardada | context/AuthContext.js:17-31 | loading ends in every case; the session is set iff the read succeeds and both stored entries are present and non-empty, otherwise memory is unchanged |
| Session.AuthSession.IniciarSesion | context/AuthContext.js:33-43 | memory holds the new user and token whatever the storage does; storage has both keys written in order, stopping at a failing call, and the outcome is a failure iff a call failed |
| Session.AuthSession.CerrarSesion | context/AuthContext.js:45-54 | memory is cleared; the two keys are removed in order, stopping at a failing call, and the failure is swallowed |
| Session.SessionSurvivesRestart | context/AuthContext.js:17-43 | a fresh context over the storage left by a successful sign-in restores exactly the signed-in token and user |
| Inventory.Available | screens/VerStockScreen.js:107-110 | the loaded list is the order-preserving sublist of the server list with quantity above zero, holding each such entry exactly as many times as the server list |
| Inventory.RemoveId | screens/VerStockScreen.js:197-203 | removal by id keeps, in order, exactly the entries with another id, each as many times as before |
| Inventory.SetCantidad | screens/VerStockScreen.js:206-214 | every entry keeps all fields except the quantity, which is replaced exactly for the given id |
| Inventory.AfterRemovalEffect | screens/VerStockScreen.js:197-219 | after an accepted removal every other positive entry remains, no entry is invented, and an entry with the id survives only with the new positive quantity |
| Inventory.AfterTransferEffect | screens/VerStockScreen.js:279-295 | after a transfer every other entry remains, an entry with the id survives only with the origin's new quantity, and the length is kept unless the origin reached zero |
| Inventory.ReconciliationKeepsPositive | screens/VerStockScreen.js:197-219 | patching after a removal or a non-negative transfer keeps every quantity positive |
| Inventory.ReconciliationKeepsSublist | screens/VerStockScreen.js:197-219 | patching the visible list and the full list the same way keeps the visible list a sublist of the full list |
| Autocomplete.Suggestions | screens/AgregarUsoScreen.js:94-104 | the suggestions are, in list order, exactly the items whose key contains the input case-insensitively |
| Autocomplete.SuggestionsCount | screens/AgregarUsoScreen.js:94-104 | each matching entry is suggested exactly as many times as it occurs in the reference list, and nothing else is |
| Autocomplete.OptionKeystroke | screens/AgregarUsoScreen.js:119-150 | a non-empty keystroke that extends no option is rejected; empty text clears the panel or shows the whole list; otherwise the options are filtered by substring |
| Autocomplete.TypingAnOptionIsAllowed | screens/AgregarUsoScreen.js:121-131 | every prefix of a declared option, as declared, passes the keystroke guard |
| Autocomplete.TypingAnyCasingIsAllowed | screens/AgregarUsoScreen.js:121-131 | any text equal, ignoring case, to a prefix of a declared option passes the keystroke guard |
| Autocomplete.OptionPassesGuard | screens/AgregarUsoScreen.js:280-288 | a value equal to an option up to case is an option, passes the guard and is suggested |
| Autocomplete.GuardRejectsNonOptions | screens/AgregarUsoScreen.js:121-131 | a rejected keystroke can never be an accepted option value |
| RecordUsage.ValidateUso | screens/AgregarUsoScreen.js:261-325 | the submission checks run in the source's order, and each error arises exactly when the earlier checks pass and its own fails: authentication, six filled fields, positive quantity, client, machine, consumption type, an exact stock code, then quantity within stock; a payload carries the form's values, the parsed quantity and the name falling back to the stock entry's |
| RecordUsage.FormCheck | screens/AgregarUsoScreen.js:261-303 | the form-level checks, each error iff its predecessors pass and it fails; success yields the parsed quantity |
| RecordUsage.StockCheck | screens/AgregarUsoScreen.js:306-325 | not-in-stock iff no entry has exactly the code; otherwise the first such entry decides between insufficient stock and the payload |
| RecordUsage.CodeMatchIsCaseSensitive | screens/AgregarUsoScreen.js:306 | a stock entry whose code differs from the input, even only by case, does not satisfy the stock check |
| RecordUsage.UsageForm.constructor | screens/AgregarUsoScreen.js:20-41 | all fields are empty, all panels hidden, the options are the declared lists |
| RecordUsage.UsageForm.CargarStock | screens/AgregarUsoScreen.js:52-77 | an authenticated load keeps the server entries with positive quantity; otherwise the stock is unchanged |
| RecordUsage.UsageForm.HandleCodigoChange | screens/AgregarUsoScreen.js:89-110 | the code is stored and the name cleared; empty text hides the panel; otherwise the suggestions are the stock entries matching the text and the panel shows iff there are any, closing the other panels; at most one panel stays open |
| RecordUsage.UsageForm.SeleccionarCodigo | screens/AgregarUsoScreen.js:112-117 | code and name are set and only the code panel hides |
| RecordUsage.UsageForm.HandleClienteChange | screens/AgregarUsoScreen.js:119-150 | a rejected keystroke changes nothing; empty text clears the value and hides the panel; otherwise the suggestions are the matching options and the panel shows iff there are any; at most one panel stays open |
| RecordUsage.UsageForm.SeleccionarCliente | screens/AgregarUsoScreen.js:152-156 | the client is set and only its panel hides |
| RecordUsage.UsageForm.HandleMaquinaChange | screens/AgregarUsoScreen.js:158-189 | as for the client field, over the machine options |
| RecordUsage.UsageForm.SeleccionarMaquina | screens/AgregarUsoScreen.js:191-195 | the machine is set and only its panel hides |
| RecordUsage.UsageForm.HandleTipoConsumoChange | screens/AgregarUsoScreen.js:198-230 | a rejected keystroke changes nothing; empty text shows the whole option list; otherwise the matching options; at most one panel stays open |
| RecordUsage.UsageForm.HandleTipoConsumoFocus | screens/AgregarUsoScreen.js:233-242 | focus shows the full consumption-type list in declared order and hides the other panels |
| RecordUsage.UsageForm.SeleccionarTipoConsumo | screens/AgregarUsoScreen.js:244-248 | the consumption type is set and only its panel hides |
| RecordUsage.UsageForm.CerrarTodasLasSugerencias | screens/AgregarUsoScreen.js:250-255 | all four panels are hidden |
| RecordUsage.UsageForm.HandleGuardar | screens/AgregarUsoScreen.js:257-392 | the outcome is the validation of the form before the call; after a validated and accepted submission the seven fields are empty and a successful reload replaces the stock with its positive entries; otherwise the form is unchanged |
| RecordUsage.UsageForm.ClearAfterSave | screens/AgregarUsoScreen.js:363-383 | the seven fields are emptied and a successful reload replaces the stock |
| PartsStock.ValidarCodigo | screens/StockScreen.js:193-205 | a code is valid iff it equals, ignoring case, the code of some catalog entry or some personal-stock entry |
| PartsStock.DuplicateName | screens/StockScreen.js:175-182 | the duplicate flag holds iff the text is not blank and some stock entry has the same trimmed, lower-cased name under a different (case-sensitive) code |
| PartsStock.CodeChangeSpec | screens/StockScreen.js:124-166 | the code is stored trimmed; the name is locked iff the code is valid; a locked name comes from the first matching stock entry, else from the first matching catalog entry, with the panel closed; an unlocked name is empty and the suggestions are the catalog entries containing the code (only for non-empty input and catalog), shown iff non-empty |
| PartsStock.LockedCodeIsValid | screens/StockScreen.js:124-166 | whenever a code change locks the name, the stored code passes the submission code check |
| PartsStock.OpenSuggestionsAreNotExact | screens/StockScreen.js:144-165 | while the name is unlocked, every suggestion is a catalog entry whose code differs from the input beyond case |
| PartsStock.SelectedSuggestionIsValid | screens/StockScreen.js:185-205 | any catalog entry picked from the suggestions passes the code check |
| PartsStock.ValidateRepuesto | screens/StockScreen.js:211-239 | the add-part checks in order, each error iff the earlier pass and it fails: blank trimmed code or name or empty quantity, non-positive quantity, unknown code; a payload has the trimmed code and name and the parsed positive quantity; the duplicate-name flag plays no part |
| PartsStock.BlankQuantityIsNotPositive | screens/StockScreen.js:214-223 | a quantity made only of spaces passes the emptiness check and is then rejected as not positive |
| PartsStock.PaddedEntryIsSentTrimmed | screens/StockScreen.js:211-239 | a spaced code with a valid trimmed form and a positive number yields a payload with the trimmed code |
| PartsStock.StockForm.constructor | screens/StockScreen.js:20-29 | the form starts empty, unlocked, with no suggestions and empty catalog and stock |
| PartsStock.StockForm.CargarCodigosDisponibles | screens/StockScreen.js:37-81 | with a token the catalog becomes the reply (empty on failure) and loading ends; without one nothing changes |
| PartsStock.StockForm.CargarStockExistente | screens/StockScreen.js:83-113 | with a session the personal stock becomes the reply, empty on failure; without one it is unchanged |
| PartsStock.StockForm.HandleCambioCodigo | screens/StockScreen.js:124-166 | the code, name, lock, suggestions and panel become what the code-change specification gives for the current stock and catalog |
| PartsStock.StockForm.ConsultarCatalogo | screens/StockScreen.js:143-165 | with the name unlocked and empty, the state becomes the catalog lookup for the stored code |
| PartsStock.StockForm.BloquearNombre | screens/StockScreen.js:135-140 | the name is set and locked and the suggestions are cleared and hidden |
| PartsStock.StockForm.HandleCambioNombre | screens/StockScreen.js:168-183 | a locked name ignores the edit; otherwise the name is stored and the duplicate flag is recomputed |
| PartsStock.StockForm.SeleccionarSugerencia | screens/StockScreen.js:185-191 | code and name come from the suggestion, the name is locked and the panel is cleared and closed |
| PartsStock.StockForm.AgregarRepuesto | screens/StockScreen.js:207-291 | the outcome is the validation of the form before the call; an accepted submission clears code, name and quantity, unlocks the name and replaces the stock with the reload (empty on failure); otherwise nothing changes |
| PartsStock.StockForm.ResetAfterAdd | screens/StockScreen.js:280-286 | code, name and quantity are cleared, the name unlocked, the stock replaced |
| PartsStock.SelectTwice | screens/StockScreen.js:185-191 | selecting the same suggestion twice gives the same state as selecting it once |
| StockView.StockFilterSpec | screens/VerStockScreen.js:127-145 | the filtered list is an order-preserving sublist of the full list keeping exactly the entries that pass the active code filter (trimmed search non-empty) and the date filter (both bounds set), each as many times as the full list holds it |
| StockView.StockFilterCount | screens/VerStockScreen.js:127-145 | every passing entry is shown as many times as the full list holds it, and every other entry not at all |
| StockView.NoFilterShowsAll | screens/VerStockScreen.js:127-145 | with a blank search and no end date, whatever the start date, the filter shows the full list |
| StockView.OtherUsers | screens/VerStockScreen.js:67 | the transfer targets are, in order, exactly the users other than the current one, each repeated as often as in the reply |
| Seqs.FilterMultiset | screens/VerStockScreen.js:67 | filtering keeps every copy of an accepted element and no copy of a rejected one |
| StockView.CustomAmountDecision | screens/VerStockScreen.js:311-326 | a non-integer or non-positive amount is invalid, one above the available quantity is refused, otherwise exactly that amount is transferred |
| StockView.TypedAmountIsTransferred | screens/VerStockScreen.js:311-326 | typing any amount from one to the available quantity transfers that amount |
| StockView.PreguntarCantidad | screens/VerStockScreen.js:328-337 | an entry with quantity one is transferred directly, any other asks for the amount |
| StockView.AbrirModalTransferir | screens/VerStockScreen.js:346-360 | the picker opens iff the users are loaded and the list is non-empty; while loading the answer is that users are still loading, and a loaded empty list reports that no users are available |
| StockView.StockViewer.constructor | screens/VerStockScreen.js:18-42 | the screen starts with empty lists, no filters and no users |
| StockView.StockViewer.CargarStock | screens/VerStockScreen.js:80-116 | an authenticated load sets both lists to the positive server entries; otherwise neither changes |
| StockView.StockViewer.CargarUsuarios | screens/VerStockScreen.js:50-77 | with a token the user list becomes the other users (empty on failure) and loading ends |
| StockView.StockViewer.AplicarFiltros | screens/VerStockScreen.js:127-145 | the visible list becomes the filter of the full list, which is unchanged, and stays its sublist |
| StockView.StockViewer.LimpiarFiltros | screens/VerStockScreen.js:147-154 | search and dates are reset and the visible list equals the full list |
| StockView.StockViewer.EliminarRepuesto | screens/VerStockScreen.js:157-225 | an id missing from the visible list is reported and nothing changes; a refusal changes nothing; otherwise both lists are patched by the removal reply |
| StockView.StockViewer.RealizarTransferencia | screens/VerStockScreen.js:228-302 | an id missing from the visible list sends nothing; otherwise the request carries the code of the first entry with that id, the amount and both users, and a reply patches both lists with the origin's new quantity; a failure changes nothing |
| UsageHistory.Insert | screens/HistorialScreen.js:75-80 | inserting into a strictly sorted list keeps it strictly sorted and adds exactly the value |
| UsageHistory.SortedDistinct | screens/HistorialScreen.js:75-80 | the result is strictly sorted and holds exactly the non-empty input values |
| UsageHistory.StrictlySortedIsDistinct | screens/HistorialScreen.js:75-80 | a strictly sorted list has no duplicates |
| UsageHistory.LocalesSpec | screens/HistorialScreen.js:75-80 | the available places are sorted, distinct and exactly the non-empty places of the loaded records |
| UsageHistory.CodesSpec | screens/HistorialScreen.js:75-80 | the available codes are sorted, distinct and exactly the non-empty codes of the loaded records |
| UsageHistory.ByFieldStep | screens/HistorialScreen.js:224-242 | one more text filter over a filtered list is the filter by the conjunction |
| UsageHistory.HistoryFilterIsConjunction | screens/HistorialScreen.js:206-245 | the filtered history is the order-preserving sublist of records passing every active filter |
| UsageHistory.ClearedFiltersShowAll | screens/HistorialScreen.js:247-254 | with all filters cleared every record is shown |
| UsageHistory.ReportOutcomeOf | screens/HistorialScreen.js:142-204 | the four-way outcome: no session, both sent with counts, nothing new, only one report sent, or both failed, each exactly under its condition |
| UsageHistory.ReportToastIsError | screens/HistorialScreen.js:186-202 | every outcome other than both reports sent shows an error toast |
| UsageHistory.SlashJoinFields | screens/HistorialScreen.js:257-263 | joining two two-character fields and a year with '/' places the slashes at positions 2 and 5 |
| UsageHistory.FormatearFechaFields | screens/HistorialScreen.js:257-263 | the date reads DD/MM/YYYY with the day and the one-based month as two digits each |
| UsageHistory.HistoryScreen.constructor | screens/HistorialScreen.js:24-54 | the screen starts with empty lists, cleared filters and no record being edited |
| UsageHistory.HistoryScreen.CargarUsos | screens/HistorialScreen.js:56-87 | an authenticated load sets both lists to the records and the place and code lists to their sorted distinct values |
| UsageHistory.HistoryScreen.AplicarFiltro | screens/HistorialScreen.js:206-245 | the visible list becomes the filtered history of the full list |
| UsageHistory.HistoryScreen.LimpiarFiltros | screens/HistorialScreen.js:247-254 | all five filters are cleared and the full list is shown |
| UsageHistory.HistoryScreen.EditarTipoConsumo | screens/HistorialScreen.js:94-98 | the editor opens on the record with its type, or "Consumo" when it has none |
| UsageHistory.HistoryScreen.ConfirmarEdicion | screens/HistorialScreen.js:100-137 | no request is sent iff no record is open or the type is empty; a request carries the record's id and the type; the editor closes after an accepted edit |
| Registration.ValidarFormulario | screens/RegisterScreen.js:25-59 | the checks run in order and each error arises exactly when the earlier pass and it fails: name, email present, email pattern on the untrimmed text, password present, at least six characters, confirmation equal; no error iff all pass |
| Registration.PaddedEmailIsRejected | screens/RegisterScreen.js:31-38 | an email with a leading or trailing space is rejected by the pattern even though the emptiness check trims |
| Registration.SentEmailMatches | screens/RegisterScreen.js:37-73 | the sent address of a valid form is the lower-cased email and still matches the pattern |
| Registration.RegisterForm.constructor | screens/RegisterScreen.js:19-23 | the form starts empty and not loading |
| Registration.RegisterForm.HandleRegister | screens/RegisterScreen.js:61-101 | nothing is sent iff validation fails; the payload has the trimmed name, the trimmed lower-cased email and the password as typed; an accepted registration clears the four fields, otherwise they stay |
| Registration.RegisterForm.Limpiar | screens/RegisterScreen.js:88-91 | the four fields are cleared |
| Email.EmailPatternIff | screens/RegisterScreen.js:37 | a text matches the pattern iff it is a non-empty local part, '@' and a domain with an inner '.', neither part holding whitespace or '@' |
| Email.EmailHasNoSpace | screens/RegisterScreen.js:37 | a matching text has no whitespace and is unchanged by trimming |
| Email.EmailPatternLower | screens/RegisterScreen.js:37-73 | lower-casing keeps a matching text matching |
| PasswordRecovery.CheckRecovery | screens/ForgotPasswordScreen.js:23-44 | a blank email is rejected first, then one failing the pattern on the untrimmed text; the address sent is the trimmed, lower-cased email |
| PasswordRecovery.SentAddressMatches | screens/ForgotPasswordScreen.js:23-44 | the sent address is the lower-cased input and matches the pattern |
| PasswordRecovery.ForgotForm.constructor | screens/ForgotPasswordScreen.js:19-21 | the screen starts with an empty email, not loading and not sent |
| PasswordRecovery.ForgotForm.HandleEnviarRecuperacion | screens/ForgotPasswordScreen.js:28-69 | a request goes out iff the checks pass, with the normalised address; the sent flag becomes true on an accepted reply and is otherwise kept |
| PasswordRecovery.ForgotForm.HandleReenviar | screens/ForgotPasswordScreen.js:71-74 | the sent flag is reset before resubmitting, so it ends true iff the new request is accepted |
| Text.Trim | screens/StockScreen.js:125 | the result is the input with only whitespace removed around it and starts and ends with a non-space |
| Text.TrimUnique | screens/StockScreen.js:125 | any unpadded text surrounded only by whitespace in the input is its trim |
| Text.TrimIdempotent | screens/StockScreen.js:125 | trimming twice is trimming once |
| Text.TrimEmptyIffBlank | screens/StockScreen.js:214 | the trim is empty iff the text is all whitespace |
| Text.LowerTable | screens/StockScreen.js:132 | lower-casing keeps the length, leaves no known capital, keeps every other character and moves each capital 32 code points on to its small letter |
| Text.LowerIdempotent | screens/StockScreen.js:132 | lower-casing twice is lower-casing once |
| Numbers.ParseSigned | screens/AgregarUsoScreen.js:273-277 | a text parses iff it is an optional sign followed by at least one digit |
| Numbers.ParseDigitsValue | screens/AgregarUsoScreen.js:273-277 | every accepted text reads as the decimal value of its digits, the same with a '+' or a leading zero, negated by a '-' |
| Numbers.ParseNatToString | screens/VerStockScreen.js:311-326 | the rendering of a natural number parses back to it, both as a quantity and as an integer |
| Numbers.ParseIntToString | screens/AgregarUsoScreen.js:273 | the rendering of any integer parses back to it |
| Numbers.PadTwoNat | screens/HistorialScreen.js:259-261 | a number below 100 pads to two digits with the same value |

## Left out

- Network requests, response status codes, JSON decoding and the error-message toasts built
  from server replies are not modelled. An ok flag, a reply list or an optional value stands
  for each reply.
- The concurrent sending of the two reports is not modelled. Only the four-way outcome on the
  two results is.
- Dates are integer day numbers. Timezone handling and the setting of a day's first and last
  instant are not modelled.
- `Number()` and `parseInt()` are modelled as an optional sign followed by decimal digits.
  Trimming and "blank is zero" are modelled for `Number()`. Fractions, exponents, hexadecimal
  and the prefix parsing of `parseInt` are not.
- `toLowerCase` covers ASCII and Latin-1 capital letters. Other scripts are left unchanged.
  UTF-16 code units, surrogate pairs and `localeCompare` are not modelled. Sorting uses code
  point order.
- The email regular expression is stated as the predicate it denotes, not as a regex engine.
- The stored user object is its serialised text. JSON encoding is not modelled.
- Session.AuthSession.VerificarSesionGuardada: the stored user is never malformed. In the
  source, a user entry that fails to parse throws after the token is already set, which leaves
  a token without a user. The model always sets both or neither.
- AsyncStorage is a map from keys to strings. A failing storage call is a parameter.
- A user in the transfer list is represented by name only.
- Session.AuthSession.IniciarSesion: the rethrow of a storage failure becomes the returned
  outcome, because exceptions are not modelled.
- The aliases `login` and `logout` are the same methods as `IniciarSesion` and `CerrarSesion`,
  so they have no members of their own.
- Plain setters for fields without logic (place of use, quantity, dates, the filter inputs,
  the email field, the password fields) are not modelled. They assign the typed text.
- Modal visibility, keyboard dismissal, logging, styles, navigation and rendering are not
  modelled. The login, home screen, header and toast component files are not part of this
  model.
- The toast's three-second automatic hiding is not modelled, because it is a timer.
- UsageHistory.HistoryScreen.ConfirmarEdicion: the reload of the history after a successful
  edit is not modelled inside the method. It is the separate `CargarUsos` call.
- Registration.RegisterForm.HandleRegister: a network exception and a refused reply are both
  a non-accepted reply. Both keep the fields and end loading.
- PasswordRecovery.ForgotForm.HandleEnviarRecuperacion: a network exception and a refused reply
  are both a non-accepted reply, which keeps the sent flag.
- Toasts.Toast.HideToast: that message and type are unchanged is stated by its frame, which
  names only the visibility field, rather than by an ensures clause.
