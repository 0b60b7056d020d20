/** The payment record returned by the reference lookup, and the recharge
    report `_formatear_informacion_recarga` builds from it (chat_bienestar.py).
    Texts are kept as the values the report shows; emoji and layout are not
    modelled. */
module Report {
  import opened Wrappers
  import opened Text

  /** The nested `data` object of a payment record. Each field is `None`
      when the key (or the enclosing `customer` / `paymentMethod` object)
      is missing. */
  datatype PaymentData = PaymentData(
    reference: Option<string>,      // data.paymentMethod.reference
    name: Option<string>,           // data.customer.name
    lastName: Option<string>,       // data.customer.lastName
    phoneNumber: Option<string>,    // data.customer.phoneNumber
    amount: Option<string>,         // data.amount, as rendered text
    status: Option<string>,         // data.status
    authorization: Option<string>)  // data.authorization

  /** A payment record: the numeric `code` (0 means found), the top-level
      `message`, and `data`. */
  datatype Payment = Payment(code: Option<int>, message: Option<string>, data: PaymentData)

  const NotAvailable := "N/A"
  const DefaultDescription := "Recarga Telefonia Celular - Yo Soy Bienestar"

  /** The status labels of `_traducir_estado`. */
  const Translations: map<string, string> := map[
    "completed" := "Completado",
    "pending" := "Pendiente",
    "failed" := "Fallido",
    "cancelled" := "Cancelado",
    "in_progress" := "En Progreso"
  ]

  /** `_traducir_estado`: the Spanish label of each of the five known
      statuses; any other status is shown verbatim, and no label is its own
      key, so a status is shown unchanged exactly when it is unknown. */
  function TraducirEstado(estado: string): (r: string)
    ensures estado == "completed" ==> r == "Completado"
    ensures estado == "pending" ==> r == "Pendiente"
    ensures estado == "failed" ==> r == "Fallido"
    ensures estado == "cancelled" ==> r == "Cancelado"
    ensures estado == "in_progress" ==> r == "En Progreso"
    ensures r == estado <==> estado !in Translations
  {
    if estado in Translations then Translations[estado] else estado
  }

  /** Distinct known statuses get distinct labels. */
  lemma TraducirEstadoInjective(a: string, b: string)
    requires a in Translations && b in Translations && a != b
    ensures TraducirEstado(a) != TraducirEstado(b)
  {
  }

  /** The emoji in front of the status line: ✅ for "completed", ⏳ for
      "pending", ❌ for anything else. */
  datatype StatusMark = Done | Waiting | Problem

  function MarkFor(estado: string): (m: StatusMark)
    ensures m == Done <==> estado == "completed"
    ensures m == Waiting <==> estado == "pending"
  {
    if estado == "completed" then Done else if estado == "pending" then Waiting else Problem
  }

  datatype RechargeReport = RechargeReport(
    reference: string,
    customer: string,
    phoneNumber: string,
    amount: string,
    mark: StatusMark,
    status: string,
    authorization: string,
    description: string)

  /** `_formatear_informacion_recarga`: every field the record carries is
      shown as it is (the status translated), every missing field falls back
      to its default, and the customer line "name lastName" is stripped. */
  function FormatearInformacionRecarga(p: Payment, referencia: string): (r: RechargeReport)
    ensures p.data.reference.Some? ==> r.reference == p.data.reference.value
    ensures p.data.reference.None? ==> r.reference == referencia
    ensures p.data.phoneNumber.Some? ==> r.phoneNumber == p.data.phoneNumber.value
    ensures p.data.phoneNumber.None? ==> r.phoneNumber == NotAvailable
    ensures p.data.amount.Some? ==> r.amount == p.data.amount.value
    ensures p.data.amount.None? ==> r.amount == NotAvailable
    ensures p.data.authorization.Some? ==> r.authorization == p.data.authorization.value
    ensures p.data.authorization.None? ==> r.authorization == NotAvailable
    ensures p.message.Some? ==> r.description == p.message.value
    ensures p.message.None? ==> r.description == DefaultDescription
    ensures r.mark == Done <==> p.data.status == Some("completed")
    ensures r.mark == Waiting <==> p.data.status == Some("pending")
    ensures p.data.status.Some? ==> r.status == TraducirEstado(p.data.status.value)
    ensures p.data.status.None? ==> r.status == NotAvailable && r.mark == Problem
    ensures r.customer == [] || (!IsSpace(r.customer[0]) && !IsSpace(r.customer[|r.customer| - 1]))
  {
    var d := p.data;
    var estado := d.status.ValueOr(NotAvailable);
    RechargeReport(
      d.reference.ValueOr(referencia),
      Strip(d.name.ValueOr(NotAvailable) + " " + d.lastName.ValueOr("")),
      d.phoneNumber.ValueOr(NotAvailable),
      d.amount.ValueOr(NotAvailable),
      MarkFor(estado),
      TraducirEstado(estado),
      d.authorization.ValueOr(NotAvailable),
      p.message.ValueOr(DefaultDescription))
  }

  /** A payment record with nothing in it still yields a full report, with
      every field "N/A" and the reference the caller typed. */
  lemma EmptyPaymentReport(code: Option<int>, referencia: string)
    ensures var r := FormatearInformacionRecarga(
                       Payment(code, None, PaymentData(None, None, None, None, None, None, None)), referencia);
            && r.reference == referencia
            && r.customer == NotAvailable
            && r.phoneNumber == NotAvailable
            && r.amount == NotAvailable
            && r.status == NotAvailable
            && r.mark == Problem
            && r.authorization == NotAvailable
            && r.description == DefaultDescription
  {
    var full := NotAvailable + " " + "";
    assert full == "N/A ";
    assert LeadingSpaces(full) == 0;
    assert full[0..] == full;
    assert TrailingSpaces(full) == 1;
    assert Strip(full) == NotAvailable;
  }

  /** A word with no surrounding whitespace. */
  predicate Trimmed(w: string) {
    |w| > 0 && !IsSpace(w[0]) && !IsSpace(w[|w| - 1])
  }

  /** The customer line joins name and last name with one space; a missing
      last name leaves just the name, a missing name shows "N/A". */
  lemma CustomerLine(p: Payment, referencia: string)
    ensures var r := FormatearInformacionRecarga(p, referencia);
            var d := p.data;
            && (d.name.Some? && d.lastName.Some? && Trimmed(d.name.value) && Trimmed(d.lastName.value) ==>
                  r.customer == d.name.value + " " + d.lastName.value)
            && (d.name.Some? && d.lastName.None? && Trimmed(d.name.value) ==> r.customer == d.name.value)
            && (d.name.None? && d.lastName.Some? && Trimmed(d.lastName.value) ==>
                  r.customer == NotAvailable + " " + d.lastName.value)
            && (d.name.None? && d.lastName.None? ==> r.customer == NotAvailable)
  {
    var d := p.data;
    var n := d.name.ValueOr(NotAvailable);
    if d.lastName.Some? && Trimmed(d.lastName.value) && (d.name.None? || Trimmed(n)) {
      var full := n + " " + d.lastName.value;
      assert full[0] == n[0];
      assert full[|full| - 1] == d.lastName.value[|d.lastName.value| - 1];
      StripNoOp(full);
    }
    if d.lastName.None? && (d.name.None? || Trimmed(n)) {
      assert Trimmed(n);
      TrimmedThenSpace(n);
    }
  }

  /** Stripping a trimmed word followed by one space gives the word back. */
  lemma TrimmedThenSpace(w: string)
    requires Trimmed(w)
    ensures Strip(w + " " + "") == w
  {
    var full := w + " " + "";
    var lo, hi := StripSlice(full);
    assert full[0] == w[0];
    assert full[|w| - 1] == w[|w| - 1];
    assert IsSpace(full[|w|]);
    assert lo == 0;
    assert hi == |w|;
    assert full[..|w|] == w;
  }
}
