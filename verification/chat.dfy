/** The per-conversation dialog of `ChatBienestar` (chat_bienestar.py): five
    states, the data gathered on the way, and `procesar_mensaje` as a pure
    step function. The two HTTP lookups are a `Backend` parameter whose
    answers are already classified as timeout, empty or found; each step
    also reports which lookup, if any, it issued. */
module Chat {
  import opened Wrappers
  import opened Text
  import opened Report

  // ---------------------------------------------------------------- data

  /** `ESTADOS`: the closed set of dialog states, in the order a
      conversation goes through them. */
  datatype State = Inicio | SolicitarNumero | MenuPrincipal | SolicitarReferencia | Finalizado

  /** A JSON object from the customer lookup, values rendered as text. */
  type Fields = map<string, string>

  /** The body of a customer lookup: an object, or a list of objects. */
  datatype CustomerBody = Object(fields: Fields) | Array(items: seq<Fields>)

  /** Python truthiness of the body: an empty object or list counts as no
      answer. */
  predicate Truthy(b: CustomerBody) {
    match b
    case Object(f) => |f| > 0
    case Array(xs) => |xs| > 0
  }

  /** The record kept from a truthy body: the object, or the list's first
      element. */
  function FirstRecord(b: CustomerBody): Fields
    requires Truthy(b)
  {
    match b
    case Object(f) => f
    case Array(xs) => xs[0]
  }

  /** What `_realizar_peticion_api` hands back: the string "timeout", an
      empty answer (`{}`: non-200 status, empty body, connection error), or
      a decoded body. */
  datatype Outcome<R> = Timeout | Empty | Found(body: R)

  /** The two external lookups, by cleaned phone number and by reference. */
  datatype Backend = Backend(customerBy: string -> Outcome<CustomerBody>, paymentBy: string -> Outcome<Payment>)

  /** The lookup a step issued. */
  datatype Query = NoQuery | CustomerQuery(phone: string) | PaymentQuery(reference: string)

  /** One `ChatBienestar` instance: `estado`, `numero_verificado`,
      `datos_cliente`. */
  datatype Chat = Chat(state: State, verifiedNumber: Option<string>, customer: Option<Fields>)

  /** The replies the dialog can give, one per distinct text of the source. */
  datatype Reply =
    | GreetFirst                          // "Por favor inicia la conversación con 'Hola'"
    | Welcome                             // welcome text and phone prompt
    | InvalidPhone                        // "ingresa un número telefónico válido de 10 dígitos"
    | VerificationTimeout                 // customer lookup timed out
    | NotACustomer                        // "No eres cliente"
    | Verified(msisdn: string, service: string, status: string)  // menu after verification
    | ReferencePrompt                     // option 1
    | OtherReportUnavailable              // option 2
    | Farewell                            // option 3
    | InvalidOption                       // anything else in the menu
    | InvalidReference                    // empty reference
    | RechargeTimeout                     // payment lookup timed out
    | RechargeFound(report: RechargeReport)
    | ReferenceNotFound(reference: string)
    | ConversationEnded                   // every message once finished

  datatype Step = Step(chat: Chat, reply: Reply, query: Query)

  const Greeting := "hola"

  // ---------------------------------------------------------------- invariants

  /** `__init__`: a new conversation. */
  function Init(): (c: Chat)
    ensures Consistent(c)
    ensures c.state == Inicio && c.verifiedNumber == None && c.customer == None
  {
    Chat(Inicio, None, None)
  }

  /** Position of a state along the dialog. */
  function Rank(s: State): nat {
    match s
    case Inicio => 0
    case SolicitarNumero => 1
    case MenuPrincipal => 2
    case SolicitarReferencia => 3
    case Finalizado => 4
  }

  /** The transition graph: staying put, or one of the six forward edges. */
  predicate Edge(from: State, to: State) {
    from == to || (from, to) in {
      (Inicio, SolicitarNumero),
      (SolicitarNumero, MenuPrincipal), (SolicitarNumero, Finalizado),
      (MenuPrincipal, SolicitarReferencia), (MenuPrincipal, Finalizado),
      (SolicitarReferencia, Finalizado)
    }
  }

  /** Every edge of the graph goes forward, and nothing leaves Finalizado. */
  lemma EdgeForward(from: State, to: State)
    requires Edge(from, to)
    ensures Rank(from) <= Rank(to)
    ensures from != to ==> Rank(from) < Rank(to)
    ensures from == Finalizado ==> to == Finalizado
  {
  }

  /** The data a conversation holds in each state: nothing before the
      number is verified, a ten-digit number and a record from the menu on,
      and after the end either both or neither. */
  predicate Consistent(c: Chat) {
    match c.state
    case Inicio => c.verifiedNumber.None? && c.customer.None?
    case SolicitarNumero => c.verifiedNumber.None? && c.customer.None?
    case MenuPrincipal => c.verifiedNumber.Some? && c.customer.Some? && IsPhone(c.verifiedNumber.value)
    case SolicitarReferencia => c.verifiedNumber.Some? && c.customer.Some? && IsPhone(c.verifiedNumber.value)
    case Finalizado =>
      && (c.verifiedNumber.Some? <==> c.customer.Some?)
      && (c.verifiedNumber.Some? ==> IsPhone(c.verifiedNumber.value))
  }

  // ---------------------------------------------------------------- handlers

  /** `_procesar_estado_inicio`: a greeting moves on to the phone prompt;
      anything else is answered by asking for a greeting and changes
      nothing. No lookup is made and no data is touched. */
  function ProcesarEstadoInicio(c: Chat, mensaje: string): (r: Step)
    ensures r.query == NoQuery
    ensures r.reply == Welcome <==> Contains(mensaje, Greeting)
    ensures r.reply == Welcome ==> r.chat == c.(state := SolicitarNumero)
    ensures r.reply != Welcome ==> r == Step(c, GreetFirst, NoQuery)
  {
    if Contains(mensaje, Greeting) then Step(c.(state := SolicitarNumero), Welcome, NoQuery)
    else Step(c, GreetFirst, NoQuery)
  }

  /** `_mensaje_verificacion_exitosa`: the record's number, service and
      status, "N/A" where missing. */
  function VerifiedReply(record: Fields): (r: Reply)
    ensures r.Verified?
    ensures "msisdn" in record ==> r.msisdn == record["msisdn"]
    ensures "msisdn" !in record ==> r.msisdn == NotAvailable
    ensures "altanService" in record ==> r.service == record["altanService"]
    ensures "altanService" !in record ==> r.service == NotAvailable
    ensures "altanStatus" in record ==> r.status == record["altanStatus"]
    ensures "altanStatus" !in record ==> r.status == NotAvailable
  {
    Verified(
      if "msisdn" in record then record["msisdn"] else NotAvailable,
      if "altanService" in record then record["altanService"] else NotAvailable,
      if "altanStatus" in record then record["altanStatus"] else NotAvailable)
  }

  /** `_procesar_estado_solicitar_numero`: an invalid number is refused
      without a lookup; a valid one is looked up by its digits, and the
      conversation either enters the menu with that number and the record
      found, or ends with the data it had. */
  function ProcesarEstadoSolicitarNumero(c: Chat, mensaje: string, backend: Backend): (r: Step)
    ensures r.query == NoQuery <==> |Digits(mensaje)| != PhoneLength
    ensures |Digits(mensaje)| != PhoneLength ==> r == Step(c, InvalidPhone, NoQuery)
    ensures |Digits(mensaje)| == PhoneLength ==>
              && r.query == CustomerQuery(Digits(mensaje))
              && r.chat.state in {MenuPrincipal, Finalizado}
    ensures |Digits(mensaje)| == PhoneLength && r.chat.state == MenuPrincipal ==>
              && r.chat.verifiedNumber == Some(Digits(mensaje)) && IsPhone(Digits(mensaje))
              && r.chat.customer.Some?
              && r.reply == VerifiedReply(r.chat.customer.value)
    ensures |Digits(mensaje)| == PhoneLength && r.chat.state == Finalizado ==>
              && r.chat == c.(state := Finalizado)
              && r.reply in {VerificationTimeout, NotACustomer}
  {
    var check := ValidarNumeroTelefonico(mensaje);
    if !check.valid then Step(c, InvalidPhone, NoQuery)
    else
      var numero := check.number.value;
      match backend.customerBy(numero)
      case Timeout => Step(c.(state := Finalizado), VerificationTimeout, CustomerQuery(numero))
      case Empty => Step(c.(state := Finalizado), NotACustomer, CustomerQuery(numero))
      case Found(body) =>
        if Truthy(body) then
          var record := FirstRecord(body);
          Step(Chat(MenuPrincipal, Some(numero), Some(record)), VerifiedReply(record), CustomerQuery(numero))
        else Step(c.(state := Finalizado), NotACustomer, CustomerQuery(numero))
  }

  /** `_manejar_opcion_recarga`: ask for a reference, keeping the number and
      record. */
  function ManejarOpcionRecarga(c: Chat): (r: Step)
    ensures r.chat.state == SolicitarReferencia && r.reply == ReferencePrompt && r.query == NoQuery
    ensures r.chat.verifiedNumber == c.verifiedNumber && r.chat.customer == c.customer
    ensures Consistent(c) && c.state == MenuPrincipal ==> Consistent(r.chat)
  {
    Step(c.(state := SolicitarReferencia), ReferencePrompt, NoQuery)
  }

  /** `_manejar_opcion_otro_reporte`: no other report exists yet; the
      conversation ends, keeping its data. */
  function ManejarOpcionOtroReporte(c: Chat): (r: Step)
    ensures r.chat.state == Finalizado && r.reply == OtherReportUnavailable && r.query == NoQuery
    ensures r.chat.verifiedNumber == c.verifiedNumber && r.chat.customer == c.customer
    ensures Consistent(c) && c.state == MenuPrincipal ==> Consistent(r.chat)
  {
    Step(c.(state := Finalizado), OtherReportUnavailable, NoQuery)
  }

  /** `_manejar_opcion_salir`: say goodbye and end, keeping the data. */
  function ManejarOpcionSalir(c: Chat): (r: Step)
    ensures r.chat.state == Finalizado && r.reply == Farewell && r.query == NoQuery
    ensures r.chat.verifiedNumber == c.verifiedNumber && r.chat.customer == c.customer
    ensures Consistent(c) && c.state == MenuPrincipal ==> Consistent(r.chat)
  {
    Step(c.(state := Finalizado), Farewell, NoQuery)
  }

  /** `_manejar_opcion_invalida`: repeat the menu; nothing changes. */
  function ManejarOpcionInvalida(c: Chat): (r: Step)
    ensures r.chat == c && r.reply == InvalidOption && r.query == NoQuery
  {
    Step(c, InvalidOption, NoQuery)
  }

  /** `_procesar_estado_menu_principal`: dispatch on the exact option text.
      Only "1", "2" and "3" leave the menu; no lookup is made and the data
      is kept. */
  function ProcesarEstadoMenuPrincipal(c: Chat, mensaje: string): (r: Step)
    ensures r.query == NoQuery
    ensures r.chat.verifiedNumber == c.verifiedNumber && r.chat.customer == c.customer
    ensures mensaje !in {"1", "2", "3"} ==> r.chat == c
    ensures mensaje == "1" ==> r.chat.state == SolicitarReferencia
    ensures mensaje in {"2", "3"} ==> r.chat.state == Finalizado
  {
    if mensaje == "1" then ManejarOpcionRecarga(c)
    else if mensaje == "2" then ManejarOpcionOtroReporte(c)
    else if mensaje == "3" then ManejarOpcionSalir(c)
    else ManejarOpcionInvalida(c)
  }

  /** `_procesar_estado_solicitar_referencia`: a blank reference is refused
      and changes nothing; any other is looked up once, stripped, and the
      conversation ends with its data kept. The report is shown exactly when
      the lookup found a record whose code is 0. */
  function ProcesarEstadoSolicitarReferencia(c: Chat, mensaje: string, backend: Backend): (r: Step)
    ensures Strip(mensaje) == [] ==> r == Step(c, InvalidReference, NoQuery)
    ensures Strip(mensaje) != [] ==> r.chat == c.(state := Finalizado) && r.query == PaymentQuery(Strip(mensaje))
    ensures r.reply.RechargeFound? <==>
              && Strip(mensaje) != []
              && backend.paymentBy(Strip(mensaje)).Found?
              && backend.paymentBy(Strip(mensaje)).body.code == Some(0)
    ensures r.reply == RechargeTimeout <==> Strip(mensaje) != [] && backend.paymentBy(Strip(mensaje)).Timeout?
  {
    var referencia := Strip(mensaje);
    if referencia == [] then Step(c, InvalidReference, NoQuery)
    else
      var done := c.(state := Finalizado);
      match backend.paymentBy(referencia)
      case Timeout => Step(done, RechargeTimeout, PaymentQuery(referencia))
      case Empty => Step(done, ReferenceNotFound(referencia), PaymentQuery(referencia))
      case Found(p) =>
        if p.code == Some(0) then
          Step(done, RechargeFound(FormatearInformacionRecarga(p, referencia)), PaymentQuery(referencia))
        else Step(done, ReferenceNotFound(referencia), PaymentQuery(referencia))
  }

  // ---------------------------------------------------------------- the step

  /** `procesar_mensaje`: normalise the message, then hand it to the handler
      of the current state. The step only ever follows an edge of the
      graph, leaves the data alone whenever the state stays, and keeps the
      data consistent with the state. */
  function ProcesarMensaje(c: Chat, mensaje: string, backend: Backend): (r: Step)
    ensures Edge(c.state, r.chat.state)
    ensures r.chat.state == c.state ==> r.chat == c
    ensures Consistent(c) ==> Consistent(r.chat)
    ensures c.state == Finalizado ==> r == Step(c, ConversationEnded, NoQuery)
  {
    var limpio := Normalize(mensaje);
    match c.state
    case Finalizado => Step(c, ConversationEnded, NoQuery)
    case Inicio => ProcesarEstadoInicio(c, limpio)
    case SolicitarNumero => ProcesarEstadoSolicitarNumero(c, limpio, backend)
    case MenuPrincipal => ProcesarEstadoMenuPrincipal(c, limpio)
    case SolicitarReferencia => ProcesarEstadoSolicitarReferencia(c, limpio, backend)
  }

  // ---------------------------------------------------------------- per-state behaviour

  /** In Inicio the dialog advances exactly when the lower-cased message
      contains "hola" anywhere; otherwise nothing changes. */
  lemma InicioStep(c: Chat, mensaje: string, backend: Backend)
    requires c.state == Inicio
    ensures var r := ProcesarMensaje(c, mensaje, backend);
            && r.query == NoQuery
            && (Contains(Lower(mensaje), Greeting) ==> r == Step(c.(state := SolicitarNumero), Welcome, NoQuery))
            && (!Contains(Lower(mensaje), Greeting) ==> r == Step(c, GreetFirst, NoQuery))
  {
    LowerStripCommute(mensaje);
    ContainsStrip(Lower(mensaje), Greeting);
  }

  /** In SolicitarNumero a message without exactly ten digits changes
      nothing and asks nobody; with ten digits the customer lookup is made
      with those digits and its outcome decides the next state. */
  lemma SolicitarNumeroStep(c: Chat, mensaje: string, backend: Backend)
    requires c.state == SolicitarNumero
    ensures var r := ProcesarMensaje(c, mensaje, backend);
            var digits := Digits(mensaje);
            var outcome := backend.customerBy(digits);
            && (|digits| != PhoneLength ==> r == Step(c, InvalidPhone, NoQuery))
            && (|digits| == PhoneLength ==> r.query == CustomerQuery(digits))
            && (|digits| == PhoneLength && outcome.Timeout? ==>
                  r.chat == c.(state := Finalizado) && r.reply == VerificationTimeout)
            && (|digits| == PhoneLength && (outcome.Empty? || (outcome.Found? && !Truthy(outcome.body))) ==>
                  r.chat == c.(state := Finalizado) && r.reply == NotACustomer)
            && (|digits| == PhoneLength && outcome.Found? && Truthy(outcome.body) ==>
                  r.chat == Chat(MenuPrincipal, Some(digits), Some(FirstRecord(outcome.body))))
  {
    DigitsNormalize(mensaje);
  }

  /** In MenuPrincipal exactly "1", "2" and "3" (after trimming) are
      options; anything else repeats the menu and changes nothing. */
  lemma MenuPrincipalStep(c: Chat, mensaje: string, backend: Backend)
    requires c.state == MenuPrincipal
    ensures var r := ProcesarMensaje(c, mensaje, backend);
            var option := Normalize(mensaje);
            && r.query == NoQuery
            && (option == "1" ==> r.chat == c.(state := SolicitarReferencia) && r.reply == ReferencePrompt)
            && (option == "2" ==> r.chat == c.(state := Finalizado) && r.reply == OtherReportUnavailable)
            && (option == "3" ==> r.chat == c.(state := Finalizado) && r.reply == Farewell)
            && (option !in {"1", "2", "3"} ==> r == Step(c, InvalidOption, NoQuery))
  {
  }

  /** In SolicitarReferencia a blank message changes nothing; any other
      message looks the normalised text up and always ends the
      conversation, with the report only when the record's code is 0. */
  lemma SolicitarReferenciaStep(c: Chat, mensaje: string, backend: Backend)
    requires c.state == SolicitarReferencia
    ensures var r := ProcesarMensaje(c, mensaje, backend);
            var referencia := Normalize(mensaje);
            var outcome := backend.paymentBy(referencia);
            && (AllSpace(mensaje) ==> r == Step(c, InvalidReference, NoQuery))
            && (!AllSpace(mensaje) ==>
                  && r.chat == c.(state := Finalizado)
                  && r.query == PaymentQuery(referencia)
                  && (outcome.Timeout? ==> r.reply == RechargeTimeout)
                  && (outcome.Found? && outcome.body.code == Some(0) ==>
                        r.reply == RechargeFound(FormatearInformacionRecarga(outcome.body, referencia)))
                  && (outcome.Empty? || (outcome.Found? && outcome.body.code != Some(0)) ==>
                        r.reply == ReferenceNotFound(referencia)))
  {
    NormalizeStripped(mensaje);
  }

  /** A timeout and an empty answer are told apart: the same state and
      message give different replies. */
  lemma TimeoutDiffersFromNotFound(c: Chat, mensaje: string, b1: Backend, b2: Backend)
    requires c.state == SolicitarNumero && |Digits(mensaje)| == PhoneLength
    requires b1.customerBy(Digits(mensaje)).Timeout? && b2.customerBy(Digits(mensaje)).Empty?
    ensures ProcesarMensaje(c, mensaje, b1).reply != ProcesarMensaje(c, mensaje, b2).reply
  {
    SolicitarNumeroStep(c, mensaje, b1);
    SolicitarNumeroStep(c, mensaje, b2);
  }

  /** The verified number is written exactly once, on entering the menu,
      and is the digits of the message that entered it. */
  lemma VerifiedNumberSetOnMenuEntry(c: Chat, mensaje: string, backend: Backend)
    requires Consistent(c)
    ensures var r := ProcesarMensaje(c, mensaje, backend);
            && (r.chat.verifiedNumber != c.verifiedNumber <==>
                  c.state != MenuPrincipal && r.chat.state == MenuPrincipal)
            && (c.state != MenuPrincipal && r.chat.state == MenuPrincipal ==>
                  r.chat.verifiedNumber == Some(Digits(mensaje)))
            && (c.verifiedNumber.Some? ==> r.chat.verifiedNumber == c.verifiedNumber)
  {
    if c.state == SolicitarNumero {
      SolicitarNumeroStep(c, mensaje, backend);
    }
  }
}
