/** The sale-ticket printer (src/services/ticketService.ts): the payment-method caption and the
    product-name truncation. The PDF layout itself is not part of this model. */
module Tickets {
  import opened Seqs
  import opened Types
  import Numbers
  import Truncation

  const Unspecified: string := "No especificado"
  const UnnamedProduct: string := "Producto sin nombre"

  /** The text a method is looked up by: `commonMethods` is a plain object, so a numeric id is
      read through its decimal string and a method stored by name is read as that name. */
  function MethodKey(m: PaymentMethod): string
    requires !m.NoMethod?
  {
    if m.MethodId? then Numbers.IntToString(m.id) else m.name
  }

  /** `commonMethods[key]`: the three built-in names. */
  function CommonMethod(key: string): Option<string>
  {
    if key == "1" then Some("Efectivo")
    else if key == "2" then Some("Tarjeta")
    else if key == "3" then Some("Transferencia")
    else None
  }

  /** `paymentTypes.find(pt => pt.id === methodId)`: only a numeric id can equal a type's id. */
  function MatchingType(m: PaymentMethod, paymentTypes: seq<PaymentType>): (r: Option<PaymentType>)
    ensures r.Some? ==> m.MethodId? && r.value in paymentTypes && r.value.id == m.id
    ensures m.MethodId? && (exists i :: 0 <= i < |paymentTypes| && paymentTypes[i].id == m.id) ==> r.Some?
  {
    if m.MethodId? then Find(paymentTypes, (pt: PaymentType) => pt.id == m.id) else None
  }

  /** `getPaymentMethodName`. A missing `paymentTypes` is the empty list. */
  function PaymentMethodName(m: PaymentMethod, paymentTypes: seq<PaymentType>): (r: string)
    ensures m.NoMethod? ==> r == Unspecified
    ensures !m.NoMethod? && MatchingType(m, paymentTypes).Some? && MatchingType(m, paymentTypes).value.descripcion != [] ==>
              r == MatchingType(m, paymentTypes).value.descripcion
    ensures !m.NoMethod? && (MatchingType(m, paymentTypes).None? || MatchingType(m, paymentTypes).value.descripcion == []) ==>
              r == (if CommonMethod(MethodKey(m)).Some? then CommonMethod(MethodKey(m)).value else "Método " + MethodKey(m))
    ensures r != []
  {
    if m.NoMethod? then Unspecified
    else
      var found := MatchingType(m, paymentTypes);
      if found.Some? && found.value.descripcion != [] then found.value.descripcion
      else if CommonMethod(MethodKey(m)).Some? then CommonMethod(MethodKey(m)).value
      else "Método " + MethodKey(m)
  }

  /** Without a matching payment type, ids 1, 2 and 3 get their built-in names and any other
      id is printed after `Método `. */
  lemma BuiltInNames(id: int, paymentTypes: seq<PaymentType>)
    requires forall i :: 0 <= i < |paymentTypes| ==> paymentTypes[i].id != id
    ensures id == 1 ==> PaymentMethodName(MethodId(id), paymentTypes) == "Efectivo"
    ensures id == 2 ==> PaymentMethodName(MethodId(id), paymentTypes) == "Tarjeta"
    ensures id == 3 ==> PaymentMethodName(MethodId(id), paymentTypes) == "Transferencia"
    ensures !(1 <= id <= 3) ==> PaymentMethodName(MethodId(id), paymentTypes) == "Método " + Numbers.IntToString(id)
  {
    assert Numbers.IntToString(1) == "1" && Numbers.IntToString(2) == "2" && Numbers.IntToString(3) == "3";
    var key := Numbers.IntToString(id);
    if key == "1" {
      Numbers.IntToStringInjective(id, 1);
    } else if key == "2" {
      Numbers.IntToStringInjective(id, 2);
    } else if key == "3" {
      Numbers.IntToStringInjective(id, 3);
    }
  }

  /** Only the first type with the id is consulted: when its description is empty the
      built-in names are used even if a later type with the same id has one. */
  lemma FirstMatchDecides(id: int, first: PaymentType, rest: seq<PaymentType>)
    requires first.id == id && first.descripcion == []
    ensures PaymentMethodName(MethodId(id), [first] + rest) == PaymentMethodName(MethodId(id), [])
  {
    assert MatchingType(MethodId(id), [first] + rest) == Some(first);
  }

  /** A sale whose method was stored by name, as the point-of-sale screen does, is printed as
      `Método cash` and so on: a name never matches a payment type. */
  lemma NamedMethodPrinted(name: string, paymentTypes: seq<PaymentType>)
    requires CommonMethod(name).None?
    ensures PaymentMethodName(MethodName(name), paymentTypes) == "Método " + name
  {
  }

  /** `truncateText` of the ticket: blank names print as `Producto sin nombre`. */
  method TruncateText(text: string, maxWidth: real, width: string -> real) returns (r: string)
    ensures Truncation.Truncated(text, maxWidth, width, UnnamedProduct, r)
  {
    r := Truncation.Truncate(text, maxWidth, width, UnnamedProduct);
  }
}
