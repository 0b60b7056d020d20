/** Whole conversations: a chat fed one message after another, each answered
    against whatever the backend said at that moment. */
module Conversation {
  import opened Wrappers
  import opened Text
  import opened Report
  import opened Chat

  /** One incoming message and the backend answers in force while it is
      processed. */
  datatype Turn = Turn(message: string, backend: Backend)

  /** The chat after processing every turn in order. */
  function Run(c: Chat, turns: seq<Turn>): Chat
    decreases |turns|
  {
    if |turns| == 0 then c
    else Run(ProcesarMensaje(c, turns[0].message, turns[0].backend).chat, turns[1..])
  }

  /** How many turns moved the conversation to another state. */
  function Moves(c: Chat, turns: seq<Turn>): nat
    decreases |turns|
  {
    if |turns| == 0 then 0
    else
      var next := ProcesarMensaje(c, turns[0].message, turns[0].backend).chat;
      (if next.state != c.state then 1 else 0) + Moves(next, turns[1..])
  }

  /** No sequence of messages takes a conversation back to an earlier state. */
  lemma {:induction false} RunForward(c: Chat, turns: seq<Turn>)
    ensures Rank(c.state) <= Rank(Run(c, turns).state)
    decreases |turns|
  {
    if |turns| > 0 {
      var next := ProcesarMensaje(c, turns[0].message, turns[0].backend).chat;
      EdgeForward(c.state, next.state);
      RunForward(next, turns[1..]);
    }
  }

  /** Every state change climbs at least one rank, so a conversation changes
      state at most four times, however long it runs. */
  lemma {:induction false} MovesBounded(c: Chat, turns: seq<Turn>)
    ensures Moves(c, turns) <= Rank(Run(c, turns).state) - Rank(c.state)
    decreases |turns|
  {
    if |turns| > 0 {
      var next := ProcesarMensaje(c, turns[0].message, turns[0].backend).chat;
      EdgeForward(c.state, next.state);
      MovesBounded(next, turns[1..]);
    }
  }

  /** A finished conversation stays exactly as it is. */
  lemma {:induction false} RunFinalizado(c: Chat, turns: seq<Turn>)
    requires c.state == Finalizado
    ensures Run(c, turns) == c
    decreases |turns|
  {
    if |turns| > 0 {
      RunFinalizado(c, turns[1..]);
    }
  }

  /** Every conversation keeps its data consistent with its state. */
  lemma {:induction false} RunConsistent(c: Chat, turns: seq<Turn>)
    requires Consistent(c)
    ensures Consistent(Run(c, turns))
    decreases |turns|
  {
    if |turns| > 0 {
      RunConsistent(ProcesarMensaje(c, turns[0].message, turns[0].backend).chat, turns[1..]);
    }
  }

  /** Once verified, the phone number and the customer record never change. */
  lemma {:induction false} RunKeepsVerification(c: Chat, turns: seq<Turn>)
    requires Consistent(c) && c.verifiedNumber.Some?
    ensures Run(c, turns).verifiedNumber == c.verifiedNumber
    ensures Run(c, turns).customer == c.customer
    decreases |turns|
  {
    if |turns| > 0 {
      var r := ProcesarMensaje(c, turns[0].message, turns[0].backend);
      VerifiedNumberSetOnMenuEntry(c, turns[0].message, turns[0].backend);
      assert r.chat.customer == c.customer by {
        if r.chat.state != c.state {
          assert c.state != SolicitarNumero;
        }
      }
      RunKeepsVerification(r.chat, turns[1..]);
    }
  }

  /** A customer-lookup backend that finds one record for every number, and
      a payment backend that finds nothing. */
  function KnownCustomer(record: Fields): Backend
    requires |record| > 0
  {
    Backend(_ => Found(Object(record)), _ => Empty)
  }

  /** "Hola", a valid number the registry knows, option 1, and a reference
      the registry does not know: the conversation ends with the not-found
      reply for the reference as it was normalised. */
  lemma HappyPathToUnknownReference(record: Fields, numero: string, referencia: string)
    requires |record| > 0 && IsPhone(numero) && !AllSpace(referencia)
    ensures var b := KnownCustomer(record);
            var c1 := ProcesarMensaje(Init(), "Hola", b);
            var c2 := ProcesarMensaje(c1.chat, numero, b);
            var c3 := ProcesarMensaje(c2.chat, "1", b);
            var c4 := ProcesarMensaje(c3.chat, referencia, b);
            && c1.chat.state == SolicitarNumero && c1.reply == Welcome
            && c2.chat == Chat(MenuPrincipal, Some(numero), Some(record))
            && c2.reply == VerifiedReply(record)
            && c3.chat.state == SolicitarReferencia && c3.reply == ReferencePrompt
            && c4.chat.state == Finalizado && c4.reply == ReferenceNotFound(Normalize(referencia))
  {
    var b := KnownCustomer(record);
    var c1 := ProcesarMensaje(Init(), "Hola", b);
    GreetingStep(b);
    var c2 := ProcesarMensaje(c1.chat, numero, b);
    KnownNumberStep(c1.chat, numero, record);
    var c3 := ProcesarMensaje(c2.chat, "1", b);
    OptionOneStep(c2.chat, b);
    SolicitarReferenciaStep(c3.chat, referencia, b);
  }

  lemma GreetingStep(b: Backend)
    ensures var r := ProcesarMensaje(Init(), "Hola", b);
            r.chat.state == SolicitarNumero && r.reply == Welcome
  {
    InicioStep(Init(), "Hola", b);
    var l := Lower("Hola");
    assert l == "hola";
    assert l[..4] == Greeting;
  }

  lemma KnownNumberStep(c: Chat, numero: string, record: Fields)
    requires |record| > 0 && c.state == SolicitarNumero && IsPhone(numero)
    ensures var r := ProcesarMensaje(c, numero, KnownCustomer(record));
            r.chat == Chat(MenuPrincipal, Some(numero), Some(record)) && r.reply == VerifiedReply(record)
  {
    DigitsOfDigits(numero);
    SolicitarNumeroStep(c, numero, KnownCustomer(record));
  }

  lemma OptionOneStep(c: Chat, b: Backend)
    requires c.state == MenuPrincipal
    ensures var r := ProcesarMensaje(c, "1", b);
            r.chat.state == SolicitarReferencia && r.reply == ReferencePrompt
  {
    StripNoOp("1");
    assert Lower("1") == "1";
  }

  /** The reference is looked up and echoed lower-cased: "REF999" becomes
      "ref999". */
  lemma ReferenceIsLowerCased()
    ensures Normalize("REF999") == "ref999"
  {
    StripNoOp("REF999");
    assert Lower("REF999") == "ref999";
  }
}
