/**
 * The logic of the `add_stock_entry` handler: a fail-fast validation of the
 * request, the record sent to the store for an accepted request, and the
 * translation of the store's error text into a response. The store itself is
 * not modelled: the handler receives the outcome of its insert call.
 */
module StockEntry {
  import opened Wrappers
  import opened Strings

  // Column names of the remote table.
  const FieldEan := "EAN"
  const FieldRayon := "RAYON"
  const FieldEtat := "ETAT"
  const FieldSousRayon := "sous rayon"

  // Keys of the JSON request body.
  const KeyEan := "ean"
  const KeyRayon := "rayon"
  const KeyEtat := "etat"
  const KeySousRayon := "sous_rayon"

  // Error codes searched for in the store's error text, in priority order.
  const CodeNotFound := "NOT_FOUND"
  const CodeAuthenticationRequired := "AUTHENTICATION_REQUIRED"
  const CodeInvalidApiKey := "INVALID_API_KEY"
  const CodeUnknownFieldName := "INVALID_REQUEST_UNKNOWN_FIELD_NAME"
  const CodeInvalidValueForColumn := "INVALID_VALUE_FOR_COLUMN"

  // The markers of the unknown-field extraction, and its fallback.
  const NameQuote := "name '"
  const NameSpace := "name "
  const UnknownFieldFallback := "inconnu"

  /** A decoded JSON body: each key maps to a string, or to `None` for JSON null. */
  type Payload = map<string, Option<string>>

  /** `data.get(key)`: `None` for an absent key and for JSON null alike. */
  function Get(data: Payload, key: string): Option<string> {
    if key in data then data[key] else None
  }

  /** Python truthiness of a string-or-None value. */
  predicate Truthy(v: Option<string>) {
    v.Some? && |v.value| > 0
  }

  /** Python truthiness of the body: present and not an empty object. */
  predicate HasData(body: Option<Payload>) {
    body.Some? && |body.value| > 0
  }

  /** `ean`, `rayon` and `etat` are all present and non-empty. */
  predicate RequiredPresent(data: Payload) {
    Truthy(Get(data, KeyEan)) && Truthy(Get(data, KeyRayon)) && Truthy(Get(data, KeyEtat))
  }

  /** A decimal digit (`str.isdigit` restricted to ASCII). */
  predicate IsDigit(c: char) {
    '0' <= c <= '9'
  }

  /** The EAN format check: exactly 13 characters, all digits. */
  predicate IsEan13(s: string) {
    |s| == 13 && forall k :: 0 <= k < |s| ==> IsDigit(s[k])
  }

  /** What the handler tells the user; the French wording is not modelled. */
  datatype Message =
    | StoreNotInitialised
    | NoData
    | MissingRequiredFields
    | InvalidEanFormat(ean: string)
    | Created(ean: string)
    | TableNotFound
    | ApiKeyRejected
    | UnknownFieldName(field: string)
    | InvalidColumnValue
    | InternalError(detail: string)

  /** An HTTP status with its message. */
  datatype Response = Response(status: nat, message: Message)

  /** A request that passed validation. */
  datatype Entry = Entry(ean: string, rayon: string, etat: string, sousRayon: Option<string>)

  /** What the store's insert call did: created a row, or raised an error with this text. */
  datatype InsertOutcome = Inserted(id: string) | Failed(error: string)

  /**
   * The checks of `add_stock_entry` before any insert, in their order: store
   * client initialised, body present and non-empty, required fields present,
   * EAN format. The first failing check decides the response.
   */
  function Validate(storeReady: bool, body: Option<Payload>): (r: Result<Entry, Response>)
    // Accepted exactly when every check passes.
    ensures r.Success? <==>
      storeReady && HasData(body) && RequiredPresent(body.value)
      && IsEan13(Get(body.value, KeyEan).value)
    // An accepted entry copies the request's values unchanged and is well formed.
    ensures r.Success? ==>
      && Get(body.value, KeyEan) == Some(r.value.ean)
      && Get(body.value, KeyRayon) == Some(r.value.rayon)
      && Get(body.value, KeyEtat) == Some(r.value.etat)
      && Get(body.value, KeySousRayon) == r.value.sousRayon
      && IsEan13(r.value.ean) && r.value.rayon != "" && r.value.etat != ""
    // Server error only for the missing store client, whatever the body.
    ensures r.Failure? ==> (r.error.status == 500 <==> !storeReady)
    ensures r.Failure? ==> r.error.status == 400 || r.error.status == 500
    ensures !storeReady ==> r.Failure? && r.error.message == StoreNotInitialised
    // Each later rejection fires only when every earlier check passed.
    ensures r.Failure? && r.error.message == NoData <==> storeReady && !HasData(body)
    ensures r.Failure? && r.error.message == MissingRequiredFields <==>
      storeReady && HasData(body) && !RequiredPresent(body.value)
    ensures r.Failure? && r.error.message.InvalidEanFormat? <==>
      storeReady && HasData(body) && RequiredPresent(body.value)
      && !IsEan13(Get(body.value, KeyEan).value)
    // The format rejection names the offending value.
    ensures r.Failure? && r.error.message.InvalidEanFormat? ==>
      Get(body.value, KeyEan) == Some(r.error.message.ean)
  {
    if !storeReady then Failure(Response(500, StoreNotInitialised))
    else if !HasData(body) then Failure(Response(400, NoData))
    else
      var data := body.value;
      var ean := Get(data, KeyEan);
      if !RequiredPresent(data) then Failure(Response(400, MissingRequiredFields))
      else if !IsEan13(ean.value) then Failure(Response(400, InvalidEanFormat(ean.value)))
      else Success(Entry(ean.value, Get(data, KeyRayon).value, Get(data, KeyEtat).value,
                         Get(data, KeySousRayon)))
  }

  /**
   * `record` is the row sent to the store for `e`: the EAN, RAYON and ETAT
   * columns with the entry's values, and the `sous rayon` column exactly when
   * the sub-category is non-empty.
   */
  ghost predicate IsRecordOf(record: map<string, string>, e: Entry) {
    && record.Keys == (if Truthy(e.sousRayon) then {FieldEan, FieldRayon, FieldEtat, FieldSousRayon}
                       else {FieldEan, FieldRayon, FieldEtat})
    && record[FieldEan] == e.ean
    && record[FieldRayon] == e.rayon
    && record[FieldEtat] == e.etat
    && (Truthy(e.sousRayon) ==> record[FieldSousRayon] == e.sousRayon.value)
  }

  /** Builds `record_data`: the three required columns, then `sous rayon` when truthy. */
  method BuildRecord(e: Entry) returns (record: map<string, string>)
    ensures IsRecordOf(record, e)
  {
    record := map[FieldEan := e.ean, FieldRayon := e.rayon, FieldEtat := e.etat];
    if Truthy(e.sousRayon) {
      record := record[FieldSousRayon := e.sousRayon.value];
    }
  }

  /**
   * The field name reported for an unknown-field error:
   * `error.split("name ")[-1].split("'")[0]` when the text contains
   * `name '`, otherwise "inconnu". As written it reads what follows the LAST
   * `name `, up to the first quote after it.
   */
  function ExtractUnknownField(error: string): (field: string)
    ensures '\'' !in field
    ensures !Contains(error, NameQuote) ==> field == UnknownFieldFallback
    ensures Contains(error, NameQuote) ==>
      exists i: nat :: LastOccursAt(error, NameSpace, i) && FieldAfter(error, i + |NameSpace|, field)
  {
    if Contains(error, NameQuote) then
      ContainsNameQuoteContainsNameSpace(error);
      NameSpaceNoSelfOverlap();
      var tail := SplitLast(error, NameSpace);
      var field := SplitFirst(tail, '\'');
      assert FieldAfter(error, |error| - |tail|, field);
      field
    else UnknownFieldFallback
  }

  /** `field` starts at `start` in `s` and ends at the next quote or at the end of `s`. */
  ghost predicate FieldAfter(s: string, start: nat, field: string) {
    && start + |field| <= |s|
    && s[start..start + |field|] == field
    && (start + |field| == |s| || s[start + |field|] == '\'')
  }

  /** Occurrences of `name ` never overlap: no proper prefix of it ends it. */
  lemma NameSpaceNoSelfOverlap()
    ensures NoSelfOverlap(NameSpace)
  {
    forall k | 0 < k < |NameSpace|
      ensures NameSpace[..k] != NameSpace[|NameSpace| - k..]
    {
      assert NameSpace[..k][0] == 'n' != NameSpace[|NameSpace| - k..][0];
    }
  }

  /** A text containing `name '` contains `name ` at the same place. */
  lemma ContainsNameQuoteContainsNameSpace(error: string)
    requires Contains(error, NameQuote)
    ensures Contains(error, NameSpace)
  {
    var i: nat :| i <= |error| && OccursAt(error, NameQuote, i);
    assert error[i..i + |NameSpace|] == error[i..i + |NameQuote|][..|NameSpace|];
    assert OccursAt(error, NameSpace, i);
  }

  /**
   * When the last `name ` of the text is the one followed by a quote (the
   * usual shape `... name 'X' ...`), the extraction as written yields the
   * empty string rather than `X`.
   */
  lemma ExtractIsEmptyWhenLastNameIsQuoted(error: string, i: nat)
    requires LastOccursAt(error, NameSpace, i)
    requires OccursAt(error, NameQuote, i)
    ensures ExtractUnknownField(error) == ""
  {
    var field := ExtractUnknownField(error);
    var j: nat :| LastOccursAt(error, NameSpace, j) && FieldAfter(error, j + |NameSpace|, field);
    assert j == i;
  }

  /**
   * A well-formed request is accepted with its values, and no sub-category;
   * `AddStockEntry` then answers 201 naming the EAN when the insert succeeds.
   */
  lemma ValidRequestAccepted()
    ensures Validate(true, Some(map[KeyEan := Some("1234567890123"), KeyRayon := Some("cinema"),
                                    KeyEtat := Some("BE")]))
         == Success(Entry("1234567890123", "cinema", "BE", None))
  {
  }

  /** A five-digit EAN is refused with 400, naming the value. */
  lemma ShortEanRejected()
    ensures Validate(true, Some(map[KeyEan := Some("12345"), KeyRayon := Some("cinema"),
                                    KeyEtat := Some("BE")]))
         == Failure(Response(400, InvalidEanFormat("12345")))
  {
  }

  /**
   * The `except` branch: the store's error text is matched against the known
   * codes in priority order. Only a rejected column value is the client's
   * fault (400); everything else is a server error (500).
   */
  function ClassifyInsertError(error: string): (r: Response)
    ensures r.status == 400 || r.status == 500
    ensures r.status == 400 <==>
      && !Contains(error, CodeNotFound)
      && !Contains(error, CodeAuthenticationRequired) && !Contains(error, CodeInvalidApiKey)
      && !Contains(error, CodeUnknownFieldName)
      && Contains(error, CodeInvalidValueForColumn)
    ensures r.message == TableNotFound <==> Contains(error, CodeNotFound)
    ensures r.message == ApiKeyRejected <==>
      !Contains(error, CodeNotFound)
      && (Contains(error, CodeAuthenticationRequired) || Contains(error, CodeInvalidApiKey))
    ensures r.message.UnknownFieldName? <==>
      && !Contains(error, CodeNotFound)
      && !Contains(error, CodeAuthenticationRequired) && !Contains(error, CodeInvalidApiKey)
      && Contains(error, CodeUnknownFieldName)
    ensures r.message.UnknownFieldName? ==> '\'' !in r.message.field
    ensures r.message.UnknownFieldName? && !Contains(error, NameQuote) ==>
      r.message.field == UnknownFieldFallback
    ensures r.message == InvalidColumnValue <==> r.status == 400
    ensures r.message.UnknownFieldName? ==> r.message.field == ExtractUnknownField(error)
    ensures r.message.InternalError? ==> r.message.detail == error
    // Text carrying none of the known codes is reported raw as a server error.
    ensures
      && !Contains(error, CodeNotFound)
      && !Contains(error, CodeAuthenticationRequired) && !Contains(error, CodeInvalidApiKey)
      && !Contains(error, CodeUnknownFieldName) && !Contains(error, CodeInvalidValueForColumn)
      ==> r == Response(500, InternalError(error))
    ensures r.message.InternalError? || r.message == TableNotFound || r.message == ApiKeyRejected
      || r.message.UnknownFieldName? || r.message == InvalidColumnValue
  {
    if Contains(error, CodeNotFound) then Response(500, TableNotFound)
    else if Contains(error, CodeAuthenticationRequired) || Contains(error, CodeInvalidApiKey) then
      Response(500, ApiKeyRejected)
    else if Contains(error, CodeUnknownFieldName) then
      Response(500, UnknownFieldName(ExtractUnknownField(error)))
    else if Contains(error, CodeInvalidValueForColumn) then Response(400, InvalidColumnValue)
    else Response(500, InternalError(error))
  }

  /**
   * `add_stock_entry` with the store's answer given as `store`: validates the
   * request; only an accepted request builds a record and sends it (`sent`),
   * and the response is then the confirmation naming the EAN or the
   * classified error.
   */
  method AddStockEntry(storeReady: bool, body: Option<Payload>, store: InsertOutcome)
    returns (response: Response, sent: Option<map<string, string>>)
    ensures sent.Some? <==> Validate(storeReady, body).Success?
    ensures Validate(storeReady, body).Failure? ==> response == Validate(storeReady, body).error
    ensures sent.Some? ==> IsRecordOf(sent.value, Validate(storeReady, body).value)
    ensures sent.Some? && store.Inserted? ==>
      response == Response(201, Created(Validate(storeReady, body).value.ean))
    ensures sent.Some? && store.Failed? ==> response == ClassifyInsertError(store.error)
    ensures response.status == 201 <==> sent.Some? && store.Inserted?
  {
    match Validate(storeReady, body)
    case Failure(rejection) =>
      response, sent := rejection, None;
    case Success(entry) =>
      var record := BuildRecord(entry);
      sent := Some(record);
      match store
      case Inserted(_) =>
        response := Response(201, Created(entry.ean));
      case Failed(error) =>
        response := ClassifyInsertError(error);
  }
}
