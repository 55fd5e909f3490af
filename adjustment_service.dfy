/** The client side of the inventory-adjustment service
    (src/services/inventoryAdjustmentService.ts): the clean-up of the request payload before it
    is sent, and the text of the error raised for a response that is not OK. The ledger itself
    (previous and new stock) is kept by the backend and is not part of this model. */
module AdjustmentService {
  import opened Seqs
  import opened Text
  import opened Types
  import opened JsObject

  /** `AdjustmentReason`, the keys of the screen's reason labels. */
  datatype Reason = Merma | Conteo | Dano | Devolucion | Correccion | Otro

  /** An optional property of a request object: missing, present with the value `undefined`,
      or present with a value. `JSON.stringify` writes only the last kind. */
  datatype Field<T> = Absent | Undefined | Present(value: T)

  /** `AdjustInventoryRequest`. `quantity` is a JavaScript number and may be NaN (`None`). */
  datatype AdjustRequest = AdjustRequest(
    productId: int,
    adjustmentType: AdjustmentType,
    quantity: Option<int>,
    reason: Reason,
    reasonDescription: Field<string>,
    userId: Field<int>)

  /** The description a request should carry: the trimmed text, and only when that is not
      empty. */
  function CleanDescription(d: Field<string>): (r: Field<string>)
    ensures !r.Undefined?
    ensures r.Present? <==> d.Present? && !IsBlank(d.value)
    ensures r.Present? ==> r.value == Trim(d.value) && r.value != []
  {
    if d.Present? && Trim(d.value) != [] then Present(Trim(d.value)) else Absent
  }

  /** The request `adjustInventory` sends for `data`. */
  function Cleaned(data: AdjustRequest): AdjustRequest
  {
    data.(reasonDescription := CleanDescription(data.reasonDescription))
  }

  /** `adjustInventory`'s payload clean-up: the spread copy gets the trimmed description or
      `undefined` in its place, and the property is then deleted when it is falsy. Every other
      property passes through unchanged. */
  method CleanRequest(data: AdjustRequest) returns (clean: AdjustRequest)
    ensures clean == Cleaned(data)
    ensures clean.reasonDescription.Present? <==>
              data.reasonDescription.Present? && !IsBlank(data.reasonDescription.value)
    ensures clean.reasonDescription.Present? ==>
              clean.reasonDescription.value == Trim(data.reasonDescription.value)
    ensures !clean.reasonDescription.Undefined?
    ensures clean.(reasonDescription := data.reasonDescription) == data
  {
    // `data.reasonDescription?.trim() || undefined`
    var trimmed: Field<string> := Undefined;
    if data.reasonDescription.Present? && Trim(data.reasonDescription.value) != [] {
      trimmed := Present(Trim(data.reasonDescription.value));
    }
    clean := data.(reasonDescription := trimmed);
    // `if (!cleanData.reasonDescription) delete cleanData.reasonDescription`
    if !clean.reasonDescription.Present? || clean.reasonDescription.value == [] {
      clean := clean.(reasonDescription := Absent);
    }
  }

  /** Cleaning a request that has already been cleaned changes nothing. */
  lemma CleanedIdempotent(data: AdjustRequest)
    ensures Cleaned(Cleaned(data)) == Cleaned(data)
  {
    var d := data.reasonDescription;
    if d.Present? && Trim(d.value) != [] {
      TrimIdempotent(d.value);
    }
  }

  /** A request whose description is missing or already trimmed and non-empty is sent as it
      is. */
  lemma CleanedKeeps(data: AdjustRequest)
    requires data.reasonDescription.Absent? ||
             (data.reasonDescription.Present? && data.reasonDescription.value != [] &&
              Trim(data.reasonDescription.value) == data.reasonDescription.value)
    ensures Cleaned(data) == data
  {
  }

  /** The two ways of leaving the description out, a missing property and an `undefined` one,
      both end without the property. */
  lemma CleanedDropsUndefined(data: AdjustRequest)
    requires !data.reasonDescription.Present?
    ensures Cleaned(data) == data.(reasonDescription := Absent)
  {
  }

  const DefaultError := "Error al ajustar inventario"

  /** `errorData.error?.message`: missing when there is no `error` property or it has no
      `message`. */
  function NestedMessage(errorData: Json): (r: Option<Json>)
    ensures r.Some? ==> Member(errorData, "error").Some?
  {
    match Member(errorData, "error")
    case Some(e) => Member(e, "message")
    case None => None
  }

  /** The message of the error raised for a response that is not OK:
      `errorData.error?.message || errorData.message || default`. A `null` body makes the
      first property read throw a `TypeError` instead (`None`). */
  function ErrorMessage(errorData: Json): (r: Option<Json>)
    ensures r.None? <==> errorData.JNull?
    ensures r.Some? ==> Truthy(r.value)
  {
    if errorData.JNull? then None
    else
      var nested := NestedMessage(errorData);
      if nested.Some? && Truthy(nested.value) then nested
      else
        var top := Member(errorData, "message");
        if top.Some? && Truthy(top.value) then top
        else Some(JStr(DefaultError))
  }

  /** The nested `error.message` wins when it is truthy, then the top-level `message`, then
      the default text; empty strings, `0`, `false` and `null` fall through. */
  lemma ErrorMessagePrecedence(errorData: Json, nested: Json, top: Json)
    requires errorData.JObj?
    ensures (NestedMessage(errorData) == Some(nested) && Truthy(nested)) ==>
              ErrorMessage(errorData) == Some(nested)
    ensures (!(NestedMessage(errorData).Some? && Truthy(NestedMessage(errorData).value)) &&
             Member(errorData, "message") == Some(top) && Truthy(top)) ==>
              ErrorMessage(errorData) == Some(top)
    ensures (NestedMessage(errorData).None? && Member(errorData, "message").None?) ==>
              ErrorMessage(errorData) == Some(JStr(DefaultError))
  {
  }

  /** A body that is not an object (a string, a number, an array) has no properties, so the
      default text is raised. */
  lemma ErrorMessageNonObject(errorData: Json)
    requires !errorData.JObj? && !errorData.JNull?
    ensures ErrorMessage(errorData) == Some(JStr(DefaultError))
  {
  }
}
