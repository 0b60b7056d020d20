/** The `sesiones` dictionary of server.py: one `ChatBienestar` per session
    id, created on demand by `/mensajear`, explicitly by `/nueva_sesion`, and
    dropped by `/cerrar_sesion`. The map is passed and returned as a value;
    each id owns its own chat, so updating the stored chat in place is the
    same as storing the chat the step returns. */
module Sessions {
  import opened Wrappers
  import opened Text
  import opened Chat

  type SessionId = string
  type Sessions = map<SessionId, Chat>

  /** What `/mensajear` leaves behind: the new map and the reply text. */
  datatype Delivery = Delivery(sessions: Sessions, reply: Reply)

  /** The chat that answers a message for `id`. */
  function Answering(s: Sessions, id: SessionId): Chat {
    if id in s then s[id] else Init()
  }

  /** `mensajear`: create the session if it is unknown, then let its chat
      process the message. A known id is answered by its stored chat, an
      unknown one by a brand-new chat; the reply is that chat's reply, the
      chat it moves to is stored under the id, no session is removed, and
      every other session is untouched. */
  function Mensajear(s: Sessions, id: SessionId, mensaje: string, backend: Backend): (r: Delivery)
    ensures r.sessions.Keys == s.Keys + {id}
    ensures id in s ==> r == Delivery(s[id := ProcesarMensaje(s[id], mensaje, backend).chat],
                                      ProcesarMensaje(s[id], mensaje, backend).reply)
    ensures id !in s ==> && r.sessions[id] == ProcesarMensaje(Init(), mensaje, backend).chat
                         && r.reply == ProcesarMensaje(Init(), mensaje, backend).reply
    ensures forall k :: k in s && k != id ==> r.sessions[k] == s[k]
    ensures id in s ==> |r.sessions| == |s|
    ensures id !in s ==> |r.sessions| == |s| + 1
    ensures id !in s ==> r.sessions[id].state in {Inicio, SolicitarNumero}
    ensures id in s ==> Edge(s[id].state, r.sessions[id].state)
    ensures id in s && s[id].state == Finalizado ==> r == Delivery(s, ConversationEnded)
  {
    var step := ProcesarMensaje(Answering(s, id), mensaje, backend);
    Delivery(s[id := step.chat], step.reply)
  }

  /** `nueva_sesion`, with the fresh uuid as a parameter: exactly one new
      session, in its initial state. */
  function NuevaSesion(s: Sessions, newId: SessionId): (r: Sessions)
    requires newId !in s
    ensures r.Keys == s.Keys + {newId}
    ensures |r| == |s| + 1
    ensures r[newId].state == Inicio && r[newId].verifiedNumber == None && r[newId].customer == None
    ensures forall k :: k in s ==> r[k] == s[k]
  {
    s[newId := Init()]
  }

  /** `cerrar_sesion`: drop the given id if present; everything else stays. */
  function CerrarSesion(s: Sessions, id: SessionId): (r: Sessions)
    ensures r.Keys == s.Keys - {id}
    ensures forall k :: k in r ==> r[k] == s[k]
    ensures id !in s ==> r == s
  {
    if id in s then s - {id} else s
  }

  /** Closing twice is the same as closing once. */
  lemma CerrarSesionIdempotent(s: Sessions, id: SessionId)
    ensures CerrarSesion(CerrarSesion(s, id), id) == CerrarSesion(s, id)
  {
  }

  /** Closing a session just created undoes the creation. */
  lemma CerrarUndoesNueva(s: Sessions, newId: SessionId)
    requires newId !in s
    ensures CerrarSesion(NuevaSesion(s, newId), newId) == s
  {
    var r := CerrarSesion(NuevaSesion(s, newId), newId);
    assert r.Keys == s.Keys;
  }

  /** A message for an id that was closed starts a brand-new conversation:
      the old chat is forgotten. */
  lemma MensajearAfterCerrar(s: Sessions, id: SessionId, mensaje: string, backend: Backend)
    ensures Mensajear(CerrarSesion(s, id), id, mensaje, backend).sessions[id]
            == ProcesarMensaje(Init(), mensaje, backend).chat
  {
  }

  /** A message to an unknown id behaves exactly like creating the session
      first and then sending the message to it. */
  lemma MensajearUnknownIsNuevaThenMensajear(s: Sessions, id: SessionId, mensaje: string, backend: Backend)
    requires id !in s
    ensures Mensajear(s, id, mensaje, backend) == Mensajear(NuevaSesion(s, id), id, mensaje, backend)
  {
    assert NuevaSesion(s, id)[id := ProcesarMensaje(Init(), mensaje, backend).chat]
        == s[id := ProcesarMensaje(Init(), mensaje, backend).chat];
  }

  /** Messages to two different sessions do not interfere: either order
      leaves the same map and each gets the same reply. */
  lemma MensajearCommutes(s: Sessions, a: SessionId, ma: string, ba: Backend,
                          b: SessionId, mb: string, bb: Backend)
    requires a != b
    ensures var ab := Mensajear(Mensajear(s, a, ma, ba).sessions, b, mb, bb);
            var ba' := Mensajear(Mensajear(s, b, mb, bb).sessions, a, ma, ba);
            && ab.sessions == ba'.sessions
            && Mensajear(s, a, ma, ba).reply == ba'.reply
            && Mensajear(s, b, mb, bb).reply == ab.reply
  {
    var stepA := ProcesarMensaje(Answering(s, a), ma, ba);
    var stepB := ProcesarMensaje(Answering(s, b), mb, bb);
    MensajearTwice(s, a, ma, ba, b, mb, bb);
    MensajearTwice(s, b, mb, bb, a, ma, ba);
    UpdatesCommute(s, a, stepA.chat, b, stepB.chat);
  }

  /** Updates under two different keys can be made in either order. */
  lemma UpdatesCommute(s: Sessions, a: SessionId, x: Chat, b: SessionId, y: Chat)
    requires a != b
    ensures s[a := x][b := y] == s[b := y][a := x]
  {
  }

  /** Two messages to different sessions, spelled out: each is answered by
      the chat the first message left in place for it. */
  lemma MensajearTwice(s: Sessions, a: SessionId, ma: string, ba: Backend,
                       b: SessionId, mb: string, bb: Backend)
    requires a != b
    ensures var stepA := ProcesarMensaje(Answering(s, a), ma, ba);
            var stepB := ProcesarMensaje(Answering(s, b), mb, bb);
            && Mensajear(s, a, ma, ba) == Delivery(s[a := stepA.chat], stepA.reply)
            && Mensajear(Mensajear(s, a, ma, ba).sessions, b, mb, bb)
               == Delivery(s[a := stepA.chat][b := stepB.chat], stepB.reply)
  {
    var stepA := ProcesarMensaje(Answering(s, a), ma, ba);
    assert Answering(s[a := stepA.chat], b) == Answering(s, b);
  }

  /** Every stored chat has data consistent with its state. */
  predicate AllConsistent(s: Sessions) {
    forall k :: k in s ==> Consistent(s[k])
  }

  /** The three operations keep every stored chat consistent. */
  lemma OperationsKeepConsistent(s: Sessions, id: SessionId, mensaje: string, backend: Backend)
    requires AllConsistent(s)
    ensures AllConsistent(Mensajear(s, id, mensaje, backend).sessions)
    ensures id !in s ==> AllConsistent(NuevaSesion(s, id))
    ensures AllConsistent(CerrarSesion(s, id))
  {
  }

  /** Creating sessions under n distinct new ids, one after another. */
  function NuevasSesiones(s: Sessions, newIds: seq<SessionId>): Sessions
    requires forall k :: k in newIds ==> k !in s
    requires forall i, j :: 0 <= i < j < |newIds| ==> newIds[i] != newIds[j]
    decreases |newIds|
  {
    if |newIds| == 0 then s
    else NuevasSesiones(NuevaSesion(s, newIds[0]), newIds[1..])
  }

  /** n creations with distinct ids add exactly n sessions, all in their
      initial state, and lose or change none of the others. */
  lemma {:induction false} NuevasSesionesCount(s: Sessions, newIds: seq<SessionId>)
    requires forall k :: k in newIds ==> k !in s
    requires forall i, j :: 0 <= i < j < |newIds| ==> newIds[i] != newIds[j]
    ensures |NuevasSesiones(s, newIds)| == |s| + |newIds|
    ensures forall k :: k in NuevasSesiones(s, newIds) <==> k in s || k in newIds
    ensures forall k :: k in s ==> NuevasSesiones(s, newIds)[k] == s[k]
    ensures forall k :: k in newIds ==> NuevasSesiones(s, newIds)[k] == Init()
    decreases |newIds|
  {
    if |newIds| > 0 {
      var rest := newIds[1..];
      assert newIds == [newIds[0]] + rest;
      assert forall j :: 0 <= j < |rest| ==> rest[j] == newIds[j + 1] != newIds[0];
      NuevasSesionesCount(NuevaSesion(s, newIds[0]), rest);
    }
  }
}
