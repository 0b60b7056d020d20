# Chat-YSB dialog and session map, in Dafny

This project models the core of the "Yo Soy Bienestar" customer chat:

- the `ChatBienestar` conversation (chat_bienestar.py). It is a closed five-state dialog:
  `INICIO → SOLICITAR_NUMERO → MENU_PRINCIPAL → SOLICITAR_REFERENCIA → FINALIZADO`.
  It greets the caller, validates a ten-digit phone number and checks it against the
  customer registry. It then offers a three-option menu and looks up a recharge by its
  reference number;
- the `sesiones` dictionary of server.py, which keeps one conversation per session id
  across HTTP requests.

`procesar_mensaje` is modelled as a pure step function, `Chat.ProcesarMensaje(chat,
message, backend)`. It returns the next chat, the reply and the lookup it issued. The
two HTTP lookups become a `Backend` value: one total function for the customer lookup
by cleaned phone number, and one for the payment lookup by reference. Each answers with
`Timeout`, `Empty` or `Found(body)`, which is how `_realizar_peticion_api` classifies
every response. Replies are a tagged datatype with one constructor per distinct reply
of the source. A reply carries data only where the text shows data: the customer's
number, service and status; the recharge report; the reference echoed back. The
session map is a `map<string, Chat>` passed and returned by value. Every id owns its
own `ChatBienestar` instance, so mutating the stored instance is the same as storing
the chat that the step returns.

Modules:

| file | module | models |
|---|---|---|
| wrappers.dfy | `Wrappers` | `Option`, for `None` and `dict.get` with a default |
| text.dfy | `Text` | `strip()`, `lower()`, substring `in`, the `re.sub` digit filter, `validar_numero_telefonico` |
| report.dfy | `Report` | payment record, `_traducir_estado`, `_formatear_informacion_recarga` |
| chat.dfy | `Chat` | states, data, the `_procesar_estado_*` and `_manejar_opcion_*` handlers, `procesar_mensaje` |
| conversation.dfy | `Conversation` | many messages in a row, and the greeting-to-reference walk-through |
| sessions.dfy | `Sessions` | `mensajear`, `nueva_sesion`, `cerrar_sesion` on `sesiones` |

Some facts about the code that the model keeps:

- The session map has no idle-session eviction, no last-activity timestamp and no lock.
- A new session starts in `INICIO`. It is not pre-seeded past the greeting.
- `procesar_mensaje` has no catch-all that turns an internal error into an apology.
- After an unknown customer or a timeout, a finished conversation holds no customer
  record. The invariant `Chat.Consistent` says exactly what each state holds.

`procesar_mensaje` lower-cases the message before any handler sees it. So the
reference sent to the payment lookup, and echoed back as not found, is the lower-cased
text (`Conversation.ReferenceIsLowerCased`).

## Model

| member | source | states |
|---|---|---|
| Text.LeadingSpaces | chat_bienestar.py:213 | counts the whitespace run that opens the message: every counted character is whitespace, the next one is not |
| Text.TrailingSpaces | chat_bienestar.py:213 | counts the whitespace run that closes the message, with the same two guarantees |
| Text.Strip | chat_bienestar.py:213 | `strip()` yields a text that neither starts nor ends with whitespace and is no longer than the input |
| Text.StripSlice | chat_bienestar.py:213 | what `strip()` removes is a whitespace prefix and a whitespace suffix, nothing from the middle |
| Text.StripIdempotent | chat_bienestar.py:184 | stripping an already stripped text changes nothing |
| Text.StripEmptyIff | chat_bienestar.py:184-187 | the stripped text is empty exactly when the message is all whitespace |
| Text.Lower | chat_bienestar.py:213 | `lower()` character by character, with the length kept; what it does to each character is stated by Text.LowerEffect |
| Text.LowerEffect | chat_bienestar.py:213 | lower-casing leaves no ASCII capital, maps each capital to its small letter, keeps every other character, and is idempotent |
| Text.LowerStripCommute | chat_bienestar.py:213 | stripping then lower-casing equals lower-casing then stripping |
| Text.Normalize | chat_bienestar.py:213 | the message every handler sees is never longer than the raw one and holds no ASCII capital |
| Text.NormalizeStripped | chat_bienestar.py:184-187 | the reference handler's second `strip()` is a no-op on the normalised message, and the reference is empty exactly when the raw message was all whitespace |
| Text.Contains | chat_bienestar.py:118 | the scan never finds a token longer than the message and always finds one at the start; Text.ContainsIff gives the full characterisation |
| Text.ContainsIff | chat_bienestar.py:118 | the substring scan succeeds exactly when the token occurs at some position of the message |
| Text.ContainsStrip | chat_bienestar.py:118 | a token without whitespace is found in the stripped message exactly when it is found in the unstripped one |
| Text.Digits | chat_bienestar.py:46 | the digit filter returns only digits and is never longer than its input |
| Text.DigitsCounts | chat_bienestar.py:46 | the filter keeps every occurrence of every digit and no other character |
| Text.DigitsConcat | chat_bienestar.py:46 | the filter distributes over concatenation, so the digits keep their order |
| Text.DigitsNormalize | chat_bienestar.py:134 | the normalised message handed to the validator holds the same digits as the raw message |
| Text.ValidarNumeroTelefonico | chat_bienestar.py:35-51 | returns (true, d) exactly when the digits d of the input number ten, and then d is ten digits; otherwise (false, None) |
| Text.PhoneRoundTrip | chat_bienestar.py:46-51 | a cleaned number validates to itself |
| Text.PhoneIgnoresSeparators | chat_bienestar.py:46-51 | inserting any text without digits never changes the verdict |
| Text.PhoneDashedFormat | chat_bienestar.py:46-51 | "ddd-ddd-dddd" with ten digits validates to those digits |
| Text.PhoneParenthesizedFormat | chat_bienestar.py:46-51 | "(ddd) ddd dddd" with ten digits validates to those digits |
| Text.PhoneExampleBare | chat_bienestar.py:46-51 | "5551234567" validates to itself |
| Text.PhoneExampleDashed | chat_bienestar.py:46-51 | "555-123-4567" validates to "5551234567" |
| Text.PhoneExampleParenthesized | chat_bienestar.py:46-51 | "(555) 123 4567" validates to "5551234567" |
| Text.PhoneExampleTooShort | chat_bienestar.py:48-51 | "12345" is rejected with no number |
| Text.PhoneExampleNoDigits | chat_bienestar.py:48-51 | "abcdefghij" is rejected with no number |
| Report.TraducirEstado | chat_bienestar.py:372-389 | "completed", "pending", "failed", "cancelled", "in_progress" get "Completado", "Pendiente", "Fallido", "Cancelado", "En Progreso"; a status is shown unchanged exactly when it is none of these five |
| Report.TraducirEstadoInjective | chat_bienestar.py:382-388 | distinct known statuses get distinct labels |
| Report.MarkFor | chat_bienestar.py:327 | the completed mark shows exactly for "completed", the pending mark exactly for "pending", the failure mark for every other status |
| Report.FormatearInformacionRecarga | chat_bienestar.py:311-344 | each of reference, phone, amount, authorization and description is the record's value when present and its default otherwise ("N/A", the typed reference, the default description); the marks follow "completed" and "pending" exactly; a present status is translated, a missing one is "N/A" with the failure mark; the customer line has no surrounding whitespace |
| Report.CustomerLine | chat_bienestar.py:315-333 | the customer line is "name lastName" for trimmed names, just the name when the last name is missing, "N/A lastName" when the name is missing, and "N/A" when both are |
| Report.EmptyPaymentReport | chat_bienestar.py:311-344 | a payment record with no fields still yields a full report: every field "N/A", the typed reference, the default description |
| Chat.Init | chat_bienestar.py:28-33 | a new chat is in INICIO with no verified number and no customer data, which is consistent |
| Chat.EdgeForward | chat_bienestar.py:20-26 | every transition of the dialog graph climbs the state order, and none leaves FINALIZADO |
| Chat.ProcesarEstadoInicio | chat_bienestar.py:108-122 | the welcome reply is given exactly when the message contains "hola", and only then does the state become SOLICITAR_NUMERO; otherwise nothing changes; no lookup is made |
| Chat.VerifiedReply | chat_bienestar.py:243-259 | number, service and status shown are the record's "msisdn", "altanService" and "altanStatus", each "N/A" when missing |
| Chat.ProcesarEstadoSolicitarNumero | chat_bienestar.py:124-153 | a lookup is made exactly when the message has ten digits, and it uses those digits; without them nothing changes; with them the chat either enters the menu holding those digits and a record, or ends with its data kept and the timeout or not-a-customer reply |
| Chat.ManejarOpcionRecarga | chat_bienestar.py:261-267 | moves to SOLICITAR_REFERENCIA with the reference prompt, keeps the number and record, and keeps a consistent menu chat consistent |
| Chat.ManejarOpcionOtroReporte | chat_bienestar.py:269-276 | ends the conversation with the "not available" reply, keeping the data and consistency |
| Chat.ManejarOpcionSalir | chat_bienestar.py:278-281 | ends the conversation with the farewell, keeping the data and consistency |
| Chat.ManejarOpcionInvalida | chat_bienestar.py:283-291 | repeats the menu and changes nothing |
| Chat.ProcesarEstadoMenuPrincipal | chat_bienestar.py:155-172 | "1" leads to SOLICITAR_REFERENCIA, "2" and "3" to FINALIZADO, anything else changes nothing; never a lookup, never a data change |
| Chat.ProcesarEstadoSolicitarReferencia | chat_bienestar.py:174-201 | a blank reference changes nothing; any other is looked up once, stripped, and ends the conversation with its data kept; the report is given exactly when the lookup found a record with code 0, the timeout reply exactly when it timed out |
| Chat.ProcesarMensaje | chat_bienestar.py:203-226 | every step follows an edge of the graph; a step that keeps the state changes no data; consistency of data with state is preserved; in FINALIZADO every message gets the "conversation ended" reply and changes nothing |
| Chat.InicioStep | chat_bienestar.py:118-122 | in INICIO the state becomes SOLICITAR_NUMERO exactly when the lower-cased message contains "hola"; otherwise nothing changes and the caller is asked to greet first |
| Chat.SolicitarNumeroStep | chat_bienestar.py:134-153 | without exactly ten digits nothing changes and no lookup is made; with ten digits the lookup uses those digits; a timeout or an empty answer (an empty object or list included) ends the chat; a non-empty answer enters the menu with the digits and the record, or the first record of a list |
| Chat.MenuPrincipalStep | chat_bienestar.py:165-172 | "1" asks for a reference; "2" and "3" end the chat; anything else repeats the menu and changes nothing; no lookup is made |
| Chat.SolicitarReferenciaStep | chat_bienestar.py:184-201 | a blank message changes nothing; any other message looks up the normalised text and always ends the chat, with the report exactly when the record's code is 0, the timeout reply on timeout, and the not-found reply otherwise |
| Chat.TimeoutDiffersFromNotFound | chat_bienestar.py:142-153 | in SOLICITAR_NUMERO a timeout and an empty answer give different replies to the same message |
| Chat.VerifiedNumberSetOnMenuEntry | chat_bienestar.py:146-150 | the verified number changes exactly when the menu is entered, it is then the message's digits, and once set it never changes |
| Conversation.RunForward | chat_bienestar.py:203-226 | no sequence of messages brings a conversation back to an earlier state |
| Conversation.MovesBounded | chat_bienestar.py:203-226 | the number of state changes in any run is at most the ranks climbed, so at most four |
| Conversation.RunFinalizado | chat_bienestar.py:222-223 | a finished conversation stays exactly as it is, whatever follows |
| Conversation.RunConsistent | chat_bienestar.py:142-153 | every reachable chat holds data consistent with its state |
| Conversation.RunKeepsVerification | chat_bienestar.py:146-150 | once verified, the number and the customer record never change |
| Conversation.HappyPathToUnknownReference | chat_bienestar.py:203-226 | "Hola", a known number, "1", then an unknown reference: SOLICITAR_NUMERO, MENU_PRINCIPAL with the number and record, SOLICITAR_REFERENCIA, then FINALIZADO with the not-found reply |
| Conversation.ReferenceIsLowerCased | chat_bienestar.py:213 | the reference "REF999" reaches the lookup as "ref999" |
| Sessions.Mensajear | server.py:25-34 | a known id is answered by its stored chat, which is replaced by the chat that processed the message; an unknown id is answered by a new chat, stored under the id; the reply is that chat's reply; the key set grows by at most the id; no other session changes; the addressed chat moves along one edge of the dialog graph; a finished session leaves the map unchanged |
| Sessions.NuevaSesion | server.py:36-40 | adds exactly one key, bound to a chat in INICIO with no data, and leaves every other entry unchanged |
| Sessions.CerrarSesion | server.py:42-46 | removes only the given id and leaves every other entry unchanged; an absent id is a no-op |
| Sessions.CerrarSesionIdempotent | server.py:44-45 | closing twice is the same as closing once |
| Sessions.CerrarUndoesNueva | server.py:36-46 | closing a session just created gives back the original map |
| Sessions.MensajearAfterCerrar | server.py:30-33 | a message to a closed id starts a fresh conversation |
| Sessions.MensajearUnknownIsNuevaThenMensajear | server.py:30-33 | a message to an unknown id equals creating the session and then sending the message |
| Sessions.MensajearCommutes | server.py:30-33 | messages to two different sessions give the same map and replies in either order |
| Sessions.OperationsKeepConsistent | server.py:25-46 | all three operations keep every stored chat consistent |
| Sessions.NuevasSesionesCount | server.py:38-39 | n creations under distinct fresh ids add exactly n sessions, all in INICIO, and keep every other session |

## Left out

- The HTTP requests in `_realizar_peticion_api`, `verificar_cliente_api` and `verificar_recarga_api`, together with their URLs and the 60-second timeout, are foreign I/O. The model replaces them with the `Backend` parameter and its three-way `Outcome`.
- JSON payloads are restricted to the shapes the code expects. A customer body is an object or a list of objects with text values. A payment record has an integer `code` and nested objects with text values. Other shapes make the source raise out of `procesar_mensaje`, and none of them can be expressed in the model. A list returned by the payment lookup, a list element that is not an object, or a `null` nested object raises `AttributeError` on `.get`. A `status` that is a JSON list or object raises `TypeError` in `traducciones.get` (chat_bienestar.py:389).
- In two of those failures the source has already changed the conversation before it raises, so the session stays changed although the request fails. A customer record that is not an object is stored and the state set to MENU_PRINCIPAL (chat_bienestar.py:146-148) before `.get` fails at chat_bienestar.py:249. A malformed payment record sets FINALIZADO (chat_bienestar.py:196) before formatting fails at chat_bienestar.py:311. The model has no such half-finished step.
- A response body that is literally the JSON string "timeout" is read as a timeout by the source. The model cannot express this, because it keeps the classification inside `Outcome`.
- Report: `code` is an integer, so a JSON `false` or `0.0` is not modelled. Python's `== 0` would also accept those.
- `_formatear_fecha` and the three date lines of the report are left out. They depend on `datetime` parsing and formatting, which is library behaviour.
- The literal reply texts and emoji are left out. Replies are a tagged datatype.
- The log lines printed while verifying are left out.
- The console loop (`iniciar_chat_interactivo`, `_mostrar_encabezado`, `ejecutar_chat`) is left out: it is standard input and output.
- app.py and main.py are left out. They are thin web wrappers around one global chat.
- server.py's CORS set-up, routing and the JSON shape of its responses are left out.
- The `uuid4` call in `nueva_sesion` is left out. The fresh id is a parameter that must not already be a key.
- Concurrent requests are left out. The model is sequential, and the source has no lock around `sesiones` or around a chat.
- The "Estado no válido" fallback of `procesar_mensaje` is not modelled. `State` is a closed datatype, so every state has a handler and that branch cannot be reached.
- Text.Lower: only ASCII letters are lower-cased. Python's `str.lower()` also maps non-ASCII capitals, and sometimes to more than one character. This matters only for the reference, which is both sent to the payment lookup and echoed back, because "hola" and the menu options are ASCII.
- Text.Digits: only the ASCII digits 0-9 are kept. Python's `\d` also matches other Unicode decimal digits (Arabic-Indic, Devanagari, ...), which the source would accept and send to the lookup.
- Text.ValidarNumeroTelefonico: inherits the ASCII-only digit set of `Text.Digits`.
