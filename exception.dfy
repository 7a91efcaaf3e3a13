/** The SDK's single error kind (`MizbanCloudException`): a message, a status code,
    the raw response and three validation details read from that response. */
module Exceptions {
  import opened Values

  /** The three detail keys, spelled exactly as the API sends them. */
  const FieldsKey := "fields"
  const InvalidFieldsKey := "invalidFields"
  const MissingFieldsKey := "missing_fields"

  /** The error value. Every member is read-only once built, so the getters of the
      source are the datatype's destructors. */
  datatype ApiError = ApiError(
    message: string,
    statusCode: int,
    response: Option<Body>,
    fields: Option<Value>,
    invalidFields: Option<Value>,
    missingFields: Option<Value>)

  /** A detail slot holds a PHP `?array`: assigning anything else to it is a TypeError. */
  predicate DetailTyped(response: Body, key: string) {
    key !in response || response[key].Null? || response[key].List? || response[key].Dict?
  }

  predicate DetailsTyped(response: Body) {
    DetailTyped(response, FieldsKey) && DetailTyped(response, InvalidFieldsKey)
    && DetailTyped(response, MissingFieldsKey)
  }

  /** `$response[$key] ?? null`, where a missing response reads as null too. */
  function Detail(response: Option<Body>, key: string): (d: Option<Value>)
    ensures d.Some? <==> response.Some? && key in response.value && !response.value[key].Null?
    ensures d.Some? ==> d.value == response.value[key]
  {
    match response
    case None => None
    case Some(r) =>
      var v := Coalesce(r, key, Null);
      if v.Null? then None else Some(v)
  }

  /** The constructor: status code 0 and no response unless given. */
  function NewApiError(message: string, statusCode: int := 0, response: Option<Body> := None): (e: ApiError)
    requires response.None? || DetailsTyped(response.value)
    ensures e.message == message && e.statusCode == statusCode && e.response == response
    ensures e.fields == Detail(response, FieldsKey)
    ensures e.invalidFields == Detail(response, InvalidFieldsKey)
    ensures e.missingFields == Detail(response, MissingFieldsKey)
    ensures e.fields.Some? ==> e.fields.value.List? || e.fields.value.Dict?
    ensures e.invalidFields.Some? ==> e.invalidFields.value.List? || e.invalidFields.value.Dict?
    ensures e.missingFields.Some? ==> e.missingFields.value.List? || e.missingFields.value.Dict?
  {
    ApiError(message, statusCode, response,
             Detail(response, FieldsKey),
             Detail(response, InvalidFieldsKey),
             Detail(response, MissingFieldsKey))
  }

  /** Without a response there is no detail of any kind, and the default code is 0. */
  lemma NoResponseNoDetails(message: string)
    ensures var e := NewApiError(message);
            e.statusCode == 0 && e.response.None?
            && e.fields.None? && e.invalidFields.None? && e.missingFields.None?
  {
  }

  /** Each detail is read from its own key only: changing one of the three keys of the
      response never changes the other two details. */
  lemma DetailsIndependent(response: Body, key: string, v: Value)
    requires key in {FieldsKey, InvalidFieldsKey, MissingFieldsKey}
    requires DetailsTyped(response) && DetailsTyped(response[key := v])
    ensures var e, e' := NewApiError("", 0, Some(response)), NewApiError("", 0, Some(response[key := v]));
            (key != FieldsKey ==> e'.fields == e.fields)
            && (key != InvalidFieldsKey ==> e'.invalidFields == e.invalidFields)
            && (key != MissingFieldsKey ==> e'.missingFields == e.missingFields)
  {
  }

  /** The keys are read verbatim: a camelCase `missingFields` or a snake_case
      `invalid_fields` in the response is not a detail. */
  lemma DetailKeysVerbatim(list: Value)
    requires list.List?
    ensures var r := map["missingFields" := list, "invalid_fields" := list];
            var e := NewApiError("", 422, Some(r));
            e.missingFields.None? && e.invalidFields.None? && e.response == Some(r)
    ensures var r := map[MissingFieldsKey := list, InvalidFieldsKey := list];
            var e := NewApiError("", 422, Some(r));
            e.missingFields == Some(list) && e.invalidFields == Some(list)
  {
  }
}
