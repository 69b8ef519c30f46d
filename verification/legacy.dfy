/**
 * The older revision of the upsert and delete handlers, `api/redirect.go`.
 *
 * It differs from `api/redirects.go` in three ways: the id is checked with the
 * URL-safe alphabet, so the check and the decoding agree; the upsert ignores
 * the error of its probe read and always writes; and every error answer is a
 * fixed text rather than the store's own error.
 */
module LegacyApi {
  import opened Wrappers
  import opened GoStrings
  import opened Base64
  import opened Paths
  import opened Http
  import opened Store
  import ApiErrors
  import RedirectsApi

  /**
   * `isValidBase64` of this revision: the id decodes with the URL-safe
   * alphabet, so it holds only URL-safe digits, `=` and newlines, and never the
   * standard alphabet's `+` or `/`.
   */
  predicate IsValidBase64(s: GoString)
    ensures IsValidBase64(s) ==> forall i | 0 <= i < |s| :: IsDecodableChar(Url, s[i])
    ensures IsValidBase64(s) ==> HasNoStdOnlyDigits(s)
  {
    Decode(Url, s).Some? && (DecodeChars(Url, s); UrlDecodableHasNoStdOnlyDigits(s); true)
  }

  const BadRequestText: GoString := "bad request"
  const FailedToSaveText: GoString := "failed to save"
  const RedirectNotFoundText: GoString := "redirect not found"
  const FailedToCheckText: GoString := "failed to check redirect existence"
  const FailedToDeleteText: GoString := "failed to delete redirect"

  /**
   * The checks this revision's `UpsertRedirect` makes before touching the
   * store. The "cannot decode id" answer cannot happen: the decoding repeats
   * the check that just succeeded. A body that does not decode is a plain
   * "bad request".
   */
  function ValidateUpsert(id: GoString, body: RedirectsApi.RequestBody): (r: Result<RedirectsApi.RequestBody, Response>)
    ensures r.Success? <==> IsValidBase64(id) && body.Parsed? && Decode(Url, id) == Some(body.from) && RedirectsApi.IsValidRedirect(body.from, body.to)
    ensures r.Success? ==> r.value == body
    ensures r.Failure? ==> r.error.status == StatusBadRequest && r.error.body.Text?
    ensures !IsValidBase64(id) ==> r == Failure(Error(StatusBadRequest, RedirectsApi.InvalidBase64Text))
    ensures IsValidBase64(id) && body.Unparsable? ==> r == Failure(Error(StatusBadRequest, BadRequestText))
    ensures IsValidBase64(id) && body.Parsed? && Decode(Url, id) != Some(body.from)
            ==> r == Failure(Error(StatusBadRequest, RedirectsApi.FromIdMismatchText))
    ensures IsValidBase64(id) && body.Parsed? && Decode(Url, id) == Some(body.from)
            && !(IsValidRelativePath(body.from) && IsValidRelativePath(body.to))
            ==> r == Failure(Error(StatusBadRequest, ApiErrors.FromToNotRelativeText))
    ensures IsValidBase64(id) && body.Parsed? && Decode(Url, id) == Some(body.from)
            && IsValidRelativePath(body.from) && body.from == body.to
            ==> r == Failure(Error(StatusBadRequest, ApiErrors.CircularPathsText))
  {
    if !IsValidBase64(id) then Failure(Error(StatusBadRequest, RedirectsApi.InvalidBase64Text))
    else
      var fromDecoded := Decode(Url, id).value;
      match body
      case Unparsable => Failure(Error(StatusBadRequest, BadRequestText))
      case Parsed(from, to) =>
        if from != fromDecoded then Failure(Error(StatusBadRequest, RedirectsApi.FromIdMismatchText))
        else if !IsValidRelativePath(from) || !IsValidRelativePath(to) then Failure(Error(StatusBadRequest, ApiErrors.FromToNotRelativeText))
        else if from == to then Failure(Error(StatusBadRequest, ApiErrors.CircularPathsText))
        else Success(body)
  }

  /**
   * Every id the current revision accepts, this one accepts too, and both
   * decode it to the same key; the other way round fails for ids holding '-'
   * or '_' (see `UrlSafeIdExample`).
   */
  lemma AcceptsCurrentIds(id: GoString)
    requires RedirectsApi.IdAccepted(id)
    ensures IsValidBase64(id) && Decode(Url, id) == Some(RedirectsApi.CheckId(id).value)
  {
  }

  /** The URL-safe text of "/??" is "Lz8_": this revision accepts it as the id of "/??", the current one refuses it. */
  lemma UrlSafeIdExample()
    ensures Encode(Url, "/??") == "Lz8_"
    ensures IsValidBase64("Lz8_") && Decode(Url, "Lz8_") == Some("/??")
    ensures RedirectsApi.CheckId("Lz8_") == Failure(Error(StatusBadRequest, RedirectsApi.InvalidBase64Text))
  {
    var s: GoString := "/??";
    assert s[0] as int == 47 && s[1] as int == 63 && s[2] as int == 63;
    assert Digit(Url, 11) == 'L' && Digit(Url, 51) == 'z' && Digit(Url, 60) == '8' && Digit(Url, 63) == '_';
    assert Quantum(Url, s[0], s[1], s[2]) == "Lz8_";
    EncodeUnfold(Url, s);
    DecodeEncode(Url, s);
    var id: GoString := "Lz8_";
    assert id[3] == '_';
    assert Value(Std, '_') == None;
    assert !IsDecodableChar(Std, id[3]);
    RedirectsApi.RefusedByStd(id, 3);
  }

  /** The `API` of this revision: only its store. */
  class API {
    const store: Datastore

    constructor (store: Datastore)
      ensures this.store == store
    {
      this.store := store;
    }

    /**
     * `UpsertRedirect` of this revision: the checks of `ValidateUpsert` with no
     * store call; then a probe read whose error is ignored, so a failing probe
     * reads as an empty value; then `SetValue(from, to, 0)`, answered
     * "failed to save" if it fails, else 201 for an empty probed value and 200
     * otherwise.
     */
    method UpsertRedirect(id: GoString, body: RedirectsApi.RequestBody) returns (resp: Response)
      modifies store.backend`data, store.backend`calls
      ensures RedirectsApi.HoldsValidRedirects(old(store.backend.data)) ==> RedirectsApi.HoldsValidRedirects(store.backend.data)
      ensures ValidateUpsert(id, body).Failure? ==>
        && resp == ValidateUpsert(id, body).error
        && store.backend.calls == old(store.backend.calls)
        && store.backend.data == old(store.backend.data)
      ensures ValidateUpsert(id, body).Success? ==>
        var existing := old(store.backend.Lookup(body.from)).0;
        && store.backend.calls == old(store.backend.calls) + [GetValueCall(body.from), SetValueCall(body.from, body.to, 0)]
        && (store.backend.setFault.Some? ==>
              resp == Error(StatusInternalServerError, FailedToSaveText) && store.backend.data == old(store.backend.data))
        && (store.backend.setFault.None? ==>
              && resp == Response(if existing == [] then StatusCreated else StatusOK, NoBody)
              && store.backend.data == old(store.backend.data)[body.from := body.to])
    {
      var validated := ValidateUpsert(id, body);
      if validated.Failure? {
        return validated.error;
      }
      var redirect := validated.value;
      var existingValue, _ := store.GetValue(redirect.from);
      var err := store.UpsertValue(redirect.from, redirect.to, 0);
      if err.Some? {
        return Error(StatusInternalServerError, FailedToSaveText);
      }
      if existingValue == [] {
        resp := Response(StatusCreated, NoBody);
      } else {
        resp := Response(StatusOK, NoBody);
      }
    }

    /**
     * `DeleteRedirect` of this revision: a bad id is a 400; a probe error
     * containing "not found" is a 404 "redirect not found", any other probe
     * error a 500 "failed to check redirect existence"; a failed delete a 500
     * "failed to delete redirect"; otherwise 204.
     */
    method DeleteRedirect(id: GoString) returns (resp: Response)
      modifies store.backend`data, store.backend`calls
      ensures RedirectsApi.HoldsValidRedirects(old(store.backend.data)) ==> RedirectsApi.HoldsValidRedirects(store.backend.data)
      ensures !IsValidBase64(id) ==>
        && resp == Error(StatusBadRequest, RedirectsApi.InvalidBase64Text)
        && store.backend.calls == old(store.backend.calls)
        && store.backend.data == old(store.backend.data)
      ensures IsValidBase64(id) ==>
        var key := Decode(Url, id).value;
        var probeErr := old(store.backend.Lookup(key)).1;
        if probeErr.Some? then
          && resp == (if Contains(probeErr.value, RedirectsApi.NotFoundMarker) then Error(StatusNotFound, RedirectNotFoundText)
                      else Error(StatusInternalServerError, FailedToCheckText))
          && store.backend.calls == old(store.backend.calls) + [GetValueCall(key)]
          && store.backend.data == old(store.backend.data)
        else
          && store.backend.calls == old(store.backend.calls) + [GetValueCall(key), DeleteValueCall(key)]
          && (store.backend.deleteFault.Some? ==>
                resp == Error(StatusInternalServerError, FailedToDeleteText) && store.backend.data == old(store.backend.data))
          && (store.backend.deleteFault.None? ==>
                resp == Response(StatusNoContent, NoBody) && store.backend.data == old(store.backend.data) - {key})
    {
      if !IsValidBase64(id) {
        return Error(StatusBadRequest, RedirectsApi.InvalidBase64Text);
      }
      var key := Decode(Url, id).value;
      var _, err := store.GetValue(key);
      if err.Some? {
        if Contains(err.value, RedirectsApi.NotFoundMarker) {
          return Error(StatusNotFound, RedirectNotFoundText);
        }
        return Error(StatusInternalServerError, FailedToCheckText);
      }
      err := store.DeleteValue(key);
      if err.Some? {
        return Error(StatusInternalServerError, FailedToDeleteText);
      }
      resp := Response(StatusNoContent, NoBody);
    }
  }
}
