/**
 * The redirect handlers of `api/redirects.go`: get, upsert, delete and list.
 *
 * A redirect id is the base64 text of its `from` path. The handlers first
 * check an id with the standard alphabet and then decode it with the URL-safe
 * one, while the listing encodes ids with the standard alphabet; the lemmas at
 * the end of this module state what that mismatch means for clients.
 */
module RedirectsApi {
  import opened Wrappers
  import opened GoStrings
  import opened Base64
  import opened Decimal
  import opened Paths
  import opened Models
  import opened ApiErrors
  import opened Http
  import opened Store
  import opened UrlBuilder

  // ---------------------------------------------------------------------------
  // Identifiers

  /**
   * `isValidBase64`: the id decodes with the standard alphabet, so it holds only
   * standard digits, `=` and newlines, in a multiple of four characters once the
   * newlines are dropped.
   */
  predicate IsValidBase64(s: GoString)
    ensures IsValidBase64(s) ==> forall i | 0 <= i < |s| :: IsDecodableChar(Std, s[i])
    ensures IsValidBase64(s) ==> |StripNewlines(s)| % 4 == 0
  {
    Decode(Std, s).Some? && (DecodeChars(Std, s); true)
  }

  /** `encodeBase64`: the id of a key, in the standard alphabet; it decodes back to the key. */
  function EncodeBase64(key: GoString): (id: GoString)
    ensures IsValidBase64(id) && Decode(Std, id) == Some(key)
  {
    DecodeEncode(Std, key);
    Encode(Std, key)
  }

  /** An id the get, upsert and delete handlers get past: it decodes under both alphabets. */
  predicate IdAccepted(id: GoString) {
    IsValidBase64(id) && Decode(Url, id).Some?
  }

  const InvalidBase64Text: GoString := "invalid base64 id"

  /**
   * The id check shared by get, upsert and delete: `isValidBase64` and then
   * `base64.URLEncoding.DecodeString`, each failure a 400 before any store
   * call. An accepted id yields the key both alphabets decode it to.
   */
  function CheckId(id: GoString): (r: Result<GoString, Response>)
    ensures r.Success? <==> IdAccepted(id)
    ensures r.Success? ==> Decode(Url, id) == Some(r.value) && Decode(Std, id) == Some(r.value)
    ensures !IsValidBase64(id) ==> r == Failure(Error(StatusBadRequest, InvalidBase64Text))
    ensures IsValidBase64(id) && !IdAccepted(id) ==> r == Failure(Response(StatusBadRequest, LibraryError(Base64Decoder)))
  {
    if !IsValidBase64(id) then Failure(Error(StatusBadRequest, InvalidBase64Text))
    else match Decode(Url, id)
      case None => Failure(Response(StatusBadRequest, LibraryError(Base64Decoder)))
      case Some(key) =>
        DecodeAgree(id);
        Success(key)
  }

  /**
   * The id the listing gives a key is accepted by get, upsert and delete
   * exactly when its standard base64 text has no '+' or '/', and then it leads
   * back to that key.
   */
  lemma ListedIdAccepted(from: GoString)
    ensures IdAccepted(EncodeBase64(from)) <==> HasNoStdOnlyDigits(EncodeBase64(from))
    ensures HasNoStdOnlyDigits(EncodeBase64(from)) ==> CheckId(EncodeBase64(from)) == Success(from)
  {
    var id := EncodeBase64(from);
    if HasNoStdOnlyDigits(id) {
      EncodeSameWithoutStdOnlyDigits(from);
      DecodeEncode(Url, from);
      assert Decode(Url, id) == Some(from);
    }
    if Decode(Url, id).Some? {
      UrlDecodableHasNoStdOnlyDigits(id);
    }
  }

  /** The standard base64 text of "/??" is "Lz8/": its last digit is 63, which only the standard alphabet writes '/'. */
  lemma EncodeExample()
    ensures EncodeBase64("/??") == "Lz8/"
  {
    var s: GoString := "/??";
    assert s[0] as int == 47 && s[1] as int == 63 && s[2] as int == 63;
    assert Digit(Std, 11) == 'L' && Digit(Std, 51) == 'z' && Digit(Std, 60) == '8' && Digit(Std, 63) == '/';
    assert Quantum(Std, s[0], s[1], s[2]) == "Lz8/";
    EncodeUnfold(Std, s);
  }

  /** The listing gives the path "/??" the id "Lz8/", which get, upsert and delete refuse with a 400. */
  lemma ListedIdRefusedExample()
    ensures CheckId(EncodeBase64("/??")) == Failure(Response(StatusBadRequest, LibraryError(Base64Decoder)))
  {
    var id := EncodeBase64("/??");
    EncodeExample();
    assert id[3] == '/';
    ListedIdAccepted("/??");
  }

  /** An id holding a character that the standard decoder neither decodes nor skips is refused before the URL-safe decoding. */
  lemma RefusedByStd(id: GoString, i: nat)
    ensures i < |id| && !IsDecodableChar(Std, id[i]) ==> CheckId(id) == Failure(Error(StatusBadRequest, InvalidBase64Text))
  {
    if Decode(Std, id).Some? {
      DecodeChars(Std, id);
    }
  }

  /** The id "invalid_base64" is refused with "invalid base64 id": '_' is a URL-safe digit only. */
  lemma InvalidIdExample()
    ensures CheckId("invalid_base64") == Failure(Error(StatusBadRequest, InvalidBase64Text))
  {
    var id: GoString := "invalid_base64";
    assert id[7] == '_';
    assert Value(Std, '_') == None;
    assert !IsDecodableChar(Std, id[7]);
    RefusedByStd(id, 7);
  }

  // ---------------------------------------------------------------------------
  // Upsert validation

  /** The request body after `json.Decoder.Decode`: the `from` and `to` fields, or a decoding error. */
  datatype RequestBody = Parsed(from: GoString, to: GoString) | Unparsable

  /** The invariant of a stored redirect: both paths relative, and no redirect to itself. */
  predicate IsValidRedirect(from: GoString, to: GoString) {
    IsValidRelativePath(from) && IsValidRelativePath(to) && from != to
  }

  /** Every redirect held by a store satisfies the invariant. */
  ghost predicate HoldsValidRedirects(data: map<GoString, GoString>) {
    forall from | from in data :: IsValidRedirect(from, data[from])
  }

  const FromIdMismatchText: GoString :=
    "invalid request: 'from' field does not " + "match base64-decoded 'id' in the URL"

  /**
   * The checks `UpsertRedirect` makes before it touches the store, in their
   * order: the id, the body, `from` against the decoded id, relative paths, and
   * `from` against `to`. Each failure is a 400.
   */
  function ValidateUpsert(id: GoString, body: RequestBody): (r: Result<RequestBody, Response>)
    ensures r.Success? <==> IdAccepted(id) && body.Parsed? && CheckId(id).value == body.from && IsValidRedirect(body.from, body.to)
    ensures r.Success? ==> r.value == body && Decode(Url, id) == Some(body.from)
    ensures r.Failure? ==> r.error.status == StatusBadRequest
    ensures !IdAccepted(id) ==> r == Failure(CheckId(id).error)
    ensures IdAccepted(id) && body.Unparsable? ==> r == Failure(Response(StatusBadRequest, LibraryError(JsonDecoder)))
    ensures IdAccepted(id) && body.Parsed? && body.from != CheckId(id).value ==> r == Failure(Error(StatusBadRequest, FromIdMismatchText))
    ensures IdAccepted(id) && body.Parsed? && body.from == CheckId(id).value && !(IsValidRelativePath(body.from) && IsValidRelativePath(body.to))
            ==> r == Failure(Error(StatusBadRequest, FromToNotRelativeText))
    ensures IdAccepted(id) && body.Parsed? && body.from == CheckId(id).value && IsValidRelativePath(body.from) && body.from == body.to
            ==> r == Failure(Error(StatusBadRequest, CircularPathsText))
  {
    match CheckId(id)
    case Failure(resp) => Failure(resp)
    case Success(fromDecoded) =>
      match body
      case Unparsable => Failure(Response(StatusBadRequest, LibraryError(JsonDecoder)))
      case Parsed(from, to) =>
        if from != fromDecoded then Failure(Error(StatusBadRequest, FromIdMismatchText))
        else if !IsValidRelativePath(from) || !IsValidRelativePath(to) then Failure(Error(StatusBadRequest, FromToNotRelativeText))
        else if from == to then Failure(Error(StatusBadRequest, CircularPathsText))
        else Success(body)
  }

  // ---------------------------------------------------------------------------
  // Listing: query parameters

  /** The parsed query of a listing request; `cursorText` is the cursor text echoed back. */
  datatype PageQuery = PageQuery(count: int, cursor: nat, cursorText: GoString)

  /**
   * The query checks of `getRedirects`, all made before any store call: a
   * missing count is "10" and a missing cursor "0"; the count must parse as a
   * signed 32-bit decimal and not be negative; the cursor must parse as an
   * unsigned 32-bit decimal.
   */
  function ParsePageQuery(countParam: GoString, cursorParam: GoString): (r: Result<PageQuery, ApiError>)
    ensures r.Success? ==> 0 <= r.value.count <= MaxInt32 && r.value.cursor <= MaxUint32
    ensures r.Success? ==> r.value.cursorText == (if cursorParam == [] then "0" else cursorParam)
    ensures r.Success? ==> ParseUint32(r.value.cursorText) == Some(r.value.cursor)
    ensures r.Success? ==> ParseInt32(if countParam == [] then "10" else countParam) == Some(r.value.count)
    ensures r.Failure? ==> r.error == ErrInvalidCount || r.error == ErrNegativeCount || r.error == ErrInvalidOrNegativeCursor
    ensures var ct := if countParam == [] then "10" else countParam;
            ParseInt32(ct).None? ==> r == Failure(ErrInvalidCount)
    ensures var ct := if countParam == [] then "10" else countParam;
            ParseInt32(ct).Some? && ParseInt32(ct).value < 0 ==> r == Failure(ErrNegativeCount)
    ensures var ct := if countParam == [] then "10" else countParam;
            var kt := if cursorParam == [] then "0" else cursorParam;
            ParseInt32(ct).Some? && ParseInt32(ct).value >= 0 && ParseUint32(kt).None? ==> r == Failure(ErrInvalidOrNegativeCursor)
    ensures var ct := if countParam == [] then "10" else countParam;
            var kt := if cursorParam == [] then "0" else cursorParam;
            ParseInt32(ct).Some? && ParseInt32(ct).value >= 0 && ParseUint32(kt).Some? ==> r.Success?
  {
    var countText := if countParam == [] then "10" else countParam;
    var cursorText := if cursorParam == [] then "0" else cursorParam;
    match ParseInt32(countText)
    case None => Failure(ErrInvalidCount)
    case Some(count) =>
      if count < 0 then Failure(ErrNegativeCount)
      else match ParseUint32(cursorText)
        case None => Failure(ErrInvalidOrNegativeCursor)
        case Some(cursor) => Success(PageQuery(count, cursor, cursorText))
  }

  /** With no query parameters the page is 10 redirects from cursor 0. */
  lemma PageQueryDefaults()
    ensures ParsePageQuery("", "") == Success(PageQuery(10, 0, "0"))
  {
    assert FormatUint(10) == "10";
    assert FormatUint(0) == "0";
    ParseInt32FormatUint(10);
    ParseUint32FormatUint(0);
  }

  /**
   * Sending back the decimal text of a count and of a cursor the store returned
   * resumes at exactly that cursor, unless the cursor needs more than 32 bits,
   * which the handler refuses.
   */
  lemma PageQueryResumes(count: nat, cursor: nat)
    requires count <= MaxInt32
    ensures ParsePageQuery(FormatUint(count), FormatUint(cursor))
         == if cursor <= MaxUint32 then Success(PageQuery(count, cursor, FormatUint(cursor)))
            else Failure(ErrInvalidOrNegativeCursor)
  {
    ParseInt32FormatUint(count);
    ParseUint32FormatUint(cursor);
  }

  /** A negative count is refused as negative, whatever its size within int32. */
  lemma NegativeCountRefused(n: nat, cursorParam: GoString)
    requires 0 < n <= -MinInt32
    ensures ParsePageQuery("-" + FormatUint(n), cursorParam) == Failure(ErrNegativeCount)
  {
    ParseInt32Negative(n);
  }

  /** A cursor with a sign is refused, whatever the count. */
  lemma SignedCursorRefused(countParam: GoString, cursorParam: GoString)
    requires ParsePageQuery(countParam, "0").Success?
    requires |cursorParam| > 0 && (cursorParam[0] == '-' || cursorParam[0] == '+')
    ensures ParsePageQuery(countParam, cursorParam) == Failure(ErrInvalidOrNegativeCursor)
  {
    ParseUint32RejectsSign(cursorParam);
  }

  // ---------------------------------------------------------------------------
  // Listing: items

  /** The item listed for the pair `from -> to`: its id is the standard base64 of `from`, its self link that id appended to the base URL. */
  function ListItem(b: Builder, from: GoString, to: GoString): (item: Redirect)
    ensures item.from == from && item.to == to
    ensures Decode(Std, item.id) == Some(from)
    ensures item.links.self.id == item.id
    ensures item.links.self.href == b.BuildRedirectSelfURL(item.id)
  {
    var id := EncodeBase64(from);
    Redirect(from, to, id, RedirectLinks(RedirectSelf(b.BuildRedirectSelfURL(id), id)))
  }

  /** With the public base URL, a listed item's id is the standard base64 of its path and its self link that base followed by the id. */
  lemma PublicListItem(from: GoString, to: GoString)
    ensures var item := ListItem(NewBuilder(PublicRedirectsURL), from, to);
            item.id == EncodeBase64(from) && item.links.self.id == item.id && item.links.self.href == PublicRedirectsURL + item.id
  {
    var b := NewBuilder(PublicRedirectsURL);
    var id := EncodeBase64(from);
    assert b.BuildRedirectSelfURL(id) == PublicRedirectsURL + id;
  }

  /** `rewriteSelfLink`: replaces the self href through the request's link builder, which may fail. */
  function RewriteSelfLink(rewrite: GoString -> Result<GoString, GoString>, item: Redirect): (r: Result<Redirect, GoString>)
    ensures r.Success? ==> rewrite(item.links.self.href) == Success(r.value.links.self.href)
    ensures r.Success? ==> r.value == item.(links := RedirectLinks(item.links.self.(href := r.value.links.self.href)))
    ensures r.Failure? ==> rewrite(item.links.self.href) == Failure(r.error)
  {
    match rewrite(item.links.self.href)
    case Success(href) => Success(item.(links := RedirectLinks(item.links.self.(href := href))))
    case Failure(e) => Failure(e)
  }

  /** `items` has one item per pair of `pairs`, in some order. */
  ghost predicate OneItemPerPair(pairs: map<GoString, GoString>, items: seq<Redirect>) {
    && |items| == |pairs|
    && (forall i | 0 <= i < |items| :: items[i].from in pairs)
    && (forall k | k in pairs :: exists i | 0 <= i < |items| :: items[i].from == k)
  }

  /** `items` lists `pairs` as the first loop of `getRedirects` builds them. */
  ghost predicate ListsPairs(b: Builder, pairs: map<GoString, GoString>, items: seq<Redirect>) {
    && OneItemPerPair(pairs, items)
    && forall i | 0 <= i < |items| :: items[i] == ListItem(b, items[i].from, pairs[items[i].from])
  }

  /** `items` lists `pairs` with every self link rewritten. */
  ghost predicate ListsPairsRewritten(b: Builder, rewrite: GoString -> Result<GoString, GoString>, pairs: map<GoString, GoString>, items: seq<Redirect>) {
    && OneItemPerPair(pairs, items)
    && forall i | 0 <= i < |items| :: RewriteSelfLink(rewrite, ListItem(b, items[i].from, pairs[items[i].from])) == Success(items[i])
  }

  /** Rewriting the self link of some listed pair fails. */
  ghost predicate RewriteFails(b: Builder, rewrite: GoString -> Result<GoString, GoString>, pairs: map<GoString, GoString>) {
    exists k | k in pairs :: RewriteSelfLink(rewrite, ListItem(b, k, pairs[k])).Failure?
  }

  /** Each item lists a key outside `rest` as its list item. */
  ghost predicate ItemsListed(b: Builder, pairs: map<GoString, GoString>, rest: set<GoString>, items: seq<Redirect>) {
    && (forall i | 0 <= i < |items| :: items[i].from in pairs && items[i].from !in rest)
    && (forall i | 0 <= i < |items| :: items[i] == ListItem(b, items[i].from, pairs[items[i].from]))
  }

  /** Every key outside `rest` has an item. */
  ghost predicate KeysCovered(pairs: map<GoString, GoString>, rest: set<GoString>, items: seq<Redirect>) {
    forall k | k in pairs && k !in rest :: exists i | 0 <= i < |items| :: items[i].from == k
  }

  /** The loop invariant of `ListItems`: the keys outside `rest` are listed, each once, as their list items. */
  ghost predicate ListedExcept(b: Builder, pairs: map<GoString, GoString>, rest: set<GoString>, items: seq<Redirect>) {
    && rest <= pairs.Keys
    && |items| + |rest| == |pairs.Keys|
    && ItemsListed(b, pairs, rest, items)
    && KeysCovered(pairs, rest, items)
  }

  lemma ItemsListedStep(b: Builder, pairs: map<GoString, GoString>, rest: set<GoString>, items: seq<Redirect>, key: GoString)
    requires ItemsListed(b, pairs, rest, items) && key in rest && key in pairs
    ensures ItemsListed(b, pairs, rest - {key}, items + [ListItem(b, key, pairs[key])])
  {
    var items' := items + [ListItem(b, key, pairs[key])];
    forall i | 0 <= i < |items'|
      ensures items'[i].from in pairs && items'[i].from !in rest - {key}
      ensures items'[i] == ListItem(b, items'[i].from, pairs[items'[i].from])
    {
      if i < |items| {
        assert items'[i] == items[i];
      }
    }
  }

  lemma KeysCoveredStep(pairs: map<GoString, GoString>, rest: set<GoString>, items: seq<Redirect>, key: GoString, item: Redirect)
    requires KeysCovered(pairs, rest, items) && item.from == key
    ensures KeysCovered(pairs, rest - {key}, items + [item])
  {
    var items' := items + [item];
    forall k | k in pairs && k !in rest - {key} ensures exists i | 0 <= i < |items'| :: items'[i].from == k {
      if k == key {
        assert items'[|items|].from == k;
      } else {
        var i :| 0 <= i < |items| && items[i].from == k;
        assert items'[i].from == k;
      }
    }
  }

  /** Listing one more key keeps the invariant. */
  lemma ListedExceptStep(b: Builder, pairs: map<GoString, GoString>, rest: set<GoString>, items: seq<Redirect>, key: GoString)
    requires ListedExcept(b, pairs, rest, items) && key in rest
    ensures ListedExcept(b, pairs, rest - {key}, items + [ListItem(b, key, pairs[key])])
  {
    ItemsListedStep(b, pairs, rest, items, key);
    KeysCoveredStep(pairs, rest, items, key, ListItem(b, key, pairs[key]));
    assert |rest - {key}| == |rest| - 1;
  }

  /** The loop over the scanned pairs (Go's map order is unspecified, so any order may come out). */
  method ListItems(b: Builder, pairs: map<GoString, GoString>) returns (items: seq<Redirect>)
    ensures ListsPairs(b, pairs, items)
  {
    items := [];
    var rest := pairs.Keys;
    while rest != {}
      invariant ListedExcept(b, pairs, rest, items)
      decreases |rest|
    {
      var key :| key in rest;
      ListedExceptStep(b, pairs, rest, items, key);
      items := items + [ListItem(b, key, pairs[key])];
      rest := rest - {key};
    }
  }

  /**
   * The loop that rewrites each item's self link in place, stopping at the
   * first failure; on success item `i` is the rewrite of input item `i`.
   */
  method RewriteSelfLinks(items: seq<Redirect>, rewrite: GoString -> Result<GoString, GoString>)
    returns (rewritten: seq<Redirect>, err: Option<GoString>)
    ensures err.None? ==> |rewritten| == |items|
    ensures err.None? ==> forall i | 0 <= i < |items| :: RewriteSelfLink(rewrite, items[i]) == Success(rewritten[i])
    ensures err.Some? ==> exists i | 0 <= i < |items| ::
              && RewriteSelfLink(rewrite, items[i]) == Failure(err.value)
              && forall j | 0 <= j < i :: RewriteSelfLink(rewrite, items[j]).Success?
  {
    rewritten := items;
    var i := 0;
    while i < |rewritten|
      invariant 0 <= i <= |rewritten| == |items|
      invariant forall j | 0 <= j < i :: RewriteSelfLink(rewrite, items[j]) == Success(rewritten[j])
      invariant forall j | i <= j < |rewritten| :: rewritten[j] == items[j]
    {
      var newRedirect := RewriteSelfLink(rewrite, rewritten[i]);
      if newRedirect.Failure? {
        return rewritten, Some(newRedirect.error);
      }
      rewritten := rewritten[i := newRedirect.value];
      i := i + 1;
    }
    err := None;
  }

  /** Rewriting every item of a listing in place keeps each item's `from`, so the same pairs are covered. */
  lemma RewrittenCoversPairs(b: Builder, rewrite: GoString -> Result<GoString, GoString>, pairs: map<GoString, GoString>,
                             items: seq<Redirect>, rewritten: seq<Redirect>)
    requires ListsPairs(b, pairs, items)
    requires |rewritten| == |items|
    requires forall i | 0 <= i < |items| :: RewriteSelfLink(rewrite, items[i]) == Success(rewritten[i])
    ensures forall i | 0 <= i < |rewritten| :: rewritten[i].from == items[i].from
    ensures OneItemPerPair(pairs, rewritten)
  {
    forall i | 0 <= i < |rewritten| ensures rewritten[i].from == items[i].from {
      assert RewriteSelfLink(rewrite, items[i]) == Success(rewritten[i]);
    }
    forall k | k in pairs ensures exists i | 0 <= i < |rewritten| :: rewritten[i].from == k {
      var i :| 0 <= i < |items| && items[i].from == k;
      assert rewritten[i].from == k;
    }
  }

  /** Rewriting every item of a listing in place gives a listing of the same pairs, rewritten. */
  lemma RewrittenListing(b: Builder, rewrite: GoString -> Result<GoString, GoString>, pairs: map<GoString, GoString>,
                         items: seq<Redirect>, rewritten: seq<Redirect>)
    requires ListsPairs(b, pairs, items)
    requires |rewritten| == |items|
    requires forall i | 0 <= i < |items| :: RewriteSelfLink(rewrite, items[i]) == Success(rewritten[i])
    ensures ListsPairsRewritten(b, rewrite, pairs, rewritten)
  {
    RewrittenCoversPairs(b, rewrite, pairs, items, rewritten);
    forall i | 0 <= i < |rewritten|
      ensures RewriteSelfLink(rewrite, ListItem(b, rewritten[i].from, pairs[rewritten[i].from])) == Success(rewritten[i])
    {
      assert items[i] == ListItem(b, items[i].from, pairs[items[i].from]);
    }
  }

  /** When every item of a listing rewrites, no listed pair's rewrite fails. */
  lemma RewriteSucceedsForAll(b: Builder, rewrite: GoString -> Result<GoString, GoString>, pairs: map<GoString, GoString>,
                              items: seq<Redirect>)
    requires ListsPairs(b, pairs, items)
    requires forall i | 0 <= i < |items| :: RewriteSelfLink(rewrite, items[i]).Success?
    ensures !RewriteFails(b, rewrite, pairs)
  {
    forall k | k in pairs ensures RewriteSelfLink(rewrite, ListItem(b, k, pairs[k])).Success? {
      var i :| 0 <= i < |items| && items[i].from == k;
      assert items[i] == ListItem(b, k, pairs[k]);
    }
  }

  /**
   * The items of a page: the scanned pairs listed, and with URL rewriting
   * enabled their self links rewritten. It fails exactly when rewriting is
   * enabled and some listed pair's rewrite fails, with that rewrite's error.
   */
  method ListPage(b: Builder, pairs: map<GoString, GoString>, rewriting: bool, rewrite: GoString -> Result<GoString, GoString>)
    returns (items: seq<Redirect>, err: Option<GoString>)
    ensures err.Some? <==> rewriting && RewriteFails(b, rewrite, pairs)
    ensures err.Some? ==> exists k | k in pairs :: RewriteSelfLink(rewrite, ListItem(b, k, pairs[k])) == Failure(err.value)
    ensures err.None? && rewriting ==> ListsPairsRewritten(b, rewrite, pairs, items)
    ensures err.None? && !rewriting ==> ListsPairs(b, pairs, items)
  {
    items := ListItems(b, pairs);
    err := None;
    if rewriting {
      var rewritten, rewriteErr := RewriteSelfLinks(items, rewrite);
      if rewriteErr.Some? {
        var i :| 0 <= i < |items| && RewriteSelfLink(rewrite, items[i]) == Failure(rewriteErr.value);
        assert items[i] == ListItem(b, items[i].from, pairs[items[i].from]);
        return items, rewriteErr;
      }
      RewrittenListing(b, rewrite, pairs, items, rewritten);
      RewriteSucceedsForAll(b, rewrite, pairs, items);
      items := rewritten;
    }
  }

  // ---------------------------------------------------------------------------
  // The handlers

  /** The marker of a "key absent" error that the upsert and delete probes look for. */
  const NotFoundMarker: GoString := "not found"

  class RedirectAPI {
    const store: Datastore
    const urlBuilder: Builder
    const enableURLRewriting: bool

    constructor (store: Datastore, urlBuilder: Builder, enableURLRewriting: bool)
      ensures this.store == store && this.urlBuilder == urlBuilder && this.enableURLRewriting == enableURLRewriting
    {
      this.store := store;
      this.urlBuilder := urlBuilder;
      this.enableURLRewriting := enableURLRewriting;
    }

    /**
     * `getRedirect`: a bad id is a 400 with no store call; otherwise one read
     * of the decoded key: a "key <k> not found" error is a 404, any other error
     * a 500, and a value a 200 with `{from: key, to: value}`.
     */
    method GetRedirect(id: GoString) returns (resp: Response)
      modifies store.backend`calls
      ensures store.backend.data == old(store.backend.data)
      ensures CheckId(id).Failure? ==> resp == CheckId(id).error && store.backend.calls == old(store.backend.calls)
      ensures CheckId(id).Success? ==>
        var key := CheckId(id).value;
        var (value, err) := store.backend.Lookup(key);
        && store.backend.calls == old(store.backend.calls) + [GetValueCall(key)]
        && (err.None? ==> resp == Response(StatusOK, RedirectJson(Redirect(key, value, "", NoLinks))))
        && (err.Some? && Contains(err.value, KeyNotFound(key)) ==> resp == Error(StatusNotFound, err.value))
        && (err.Some? && !Contains(err.value, KeyNotFound(key)) ==> resp == Error(StatusInternalServerError, InternalText))
    {
      var checked := CheckId(id);
      if checked.Failure? {
        return checked.error;
      }
      var decodedKey := checked.value;
      var redirect, err := store.GetRedirect(decodedKey);
      if err.Some? {
        if Contains(err.value, KeyNotFound(decodedKey)) {
          resp := Error(StatusNotFound, err.value);
        } else {
          resp := Error(StatusInternalServerError, ErrInternal.Message());
        }
        return;
      }
      resp := Response(StatusOK, RedirectJson(Redirect(decodedKey, redirect, "", NoLinks)));
    }

    /**
     * `UpsertRedirect`: the checks of `ValidateUpsert` with no store call; then
     * a probe read of `from`, where only an error containing "not found" lets
     * the write go ahead (any other error is a 500 with no write); then
     * `SetValue(from, to, 0)`, a 500 if it fails, else 201 when the probed
     * value was empty and 200 when it was not.
     */
    method UpsertRedirect(id: GoString, body: RequestBody) returns (resp: Response)
      modifies store.backend`data, store.backend`calls
      ensures HoldsValidRedirects(old(store.backend.data)) ==> HoldsValidRedirects(store.backend.data)
      ensures ValidateUpsert(id, body).Failure? ==>
        && resp == ValidateUpsert(id, body).error
        && store.backend.calls == old(store.backend.calls)
        && store.backend.data == old(store.backend.data)
      ensures ValidateUpsert(id, body).Success? ==>
        var (existing, probeErr) := old(store.backend.Lookup(body.from));
        if probeErr.Some? && !Contains(probeErr.value, NotFoundMarker) then
          && resp == Error(StatusInternalServerError, probeErr.value)
          && store.backend.calls == old(store.backend.calls) + [GetValueCall(body.from)]
          && store.backend.data == old(store.backend.data)
        else
          && store.backend.calls == old(store.backend.calls) + [GetValueCall(body.from), SetValueCall(body.from, body.to, 0)]
          && (store.backend.setFault.Some? ==>
                resp == Error(StatusInternalServerError, InternalText) && store.backend.data == old(store.backend.data))
          && (store.backend.setFault.None? ==>
                && resp == Response(if existing == [] then StatusCreated else StatusOK, NoBody)
                && store.backend.data == old(store.backend.data)[body.from := body.to])
    {
      var validated := ValidateUpsert(id, body);
      if validated.Failure? {
        return validated.error;
      }
      var redirect := validated.value;
      var existingValue, err := store.GetValue(redirect.from);
      if err.Some? && !Contains(err.value, NotFoundMarker) {
        return Error(StatusInternalServerError, err.value);
      }
      err := store.UpsertValue(redirect.from, redirect.to, 0);
      if err.Some? {
        return Error(StatusInternalServerError, ErrInternal.Message());
      }
      if existingValue == [] {
        resp := Response(StatusCreated, NoBody);
      } else {
        resp := Response(StatusOK, NoBody);
      }
    }

    /**
     * `DeleteRedirect`: a bad id is a 400 with no store call; then a probe read
     * of the decoded key, where an error containing "not found" is a 404 and
     * any other error a 500, neither followed by a delete; otherwise
     * `DeleteValue(key)`, a 500 if it fails and a 204 if it succeeds.
     */
    method DeleteRedirect(id: GoString) returns (resp: Response)
      modifies store.backend`data, store.backend`calls
      ensures HoldsValidRedirects(old(store.backend.data)) ==> HoldsValidRedirects(store.backend.data)
      ensures CheckId(id).Failure? ==>
        && resp == CheckId(id).error
        && store.backend.calls == old(store.backend.calls)
        && store.backend.data == old(store.backend.data)
      ensures CheckId(id).Success? ==>
        var key := CheckId(id).value;
        var (_, probeErr) := old(store.backend.Lookup(key));
        if probeErr.Some? then
          && resp == Error(if Contains(probeErr.value, NotFoundMarker) then StatusNotFound else StatusInternalServerError, probeErr.value)
          && store.backend.calls == old(store.backend.calls) + [GetValueCall(key)]
          && store.backend.data == old(store.backend.data)
        else
          && store.backend.calls == old(store.backend.calls) + [GetValueCall(key), DeleteValueCall(key)]
          && (store.backend.deleteFault.Some? ==>
                resp == Error(StatusInternalServerError, store.backend.deleteFault.value) && store.backend.data == old(store.backend.data))
          && (store.backend.deleteFault.None? ==>
                resp == Response(StatusNoContent, NoBody) && store.backend.data == old(store.backend.data) - {key})
    {
      var checked := CheckId(id);
      if checked.Failure? {
        return checked.error;
      }
      var key := checked.value;
      var _, err := store.GetValue(key);
      if err.Some? {
        if Contains(err.value, NotFoundMarker) {
          return Error(StatusNotFound, err.value);
        }
        return Error(StatusInternalServerError, err.value);
      }
      err := store.DeleteValue(key);
      if err.Some? {
        return Error(StatusInternalServerError, err.value);
      }
      resp := Response(StatusNoContent, NoBody);
    }

    /**
     * `getRedirects`: bad query parameters are a 400 with no store call; then
     * one scan step (an error is a 500), the items built from the scanned
     * pairs, their self links rewritten when URL rewriting is enabled (a
     * failure is a 500), the total count (an error is a 500), and the page:
     * the parsed count, the cursor text as given, the decimal text of the
     * store's next cursor and the total.
     */
    method GetRedirects(countParam: GoString, cursorParam: GoString, rewrite: GoString -> Result<GoString, GoString>)
      returns (resp: Response)
      modifies store.backend`calls
      ensures store.backend.data == old(store.backend.data)
      ensures ParsePageQuery(countParam, cursorParam).Failure? ==>
        && resp == Error(StatusBadRequest, ParsePageQuery(countParam, cursorParam).error.Message())
        && store.backend.calls == old(store.backend.calls)
      ensures ParsePageQuery(countParam, cursorParam).Success? && store.backend.scanReply.ScanFailed? ==>
        var q := ParsePageQuery(countParam, cursorParam).value;
        && resp == Error(StatusInternalServerError, InternalText)
        && store.backend.calls == old(store.backend.calls) + [GetKeyValuePairsCall(q.count, q.cursor)]
      ensures ParsePageQuery(countParam, cursorParam).Success? && store.backend.scanReply.Scanned? ==>
        var q := ParsePageQuery(countParam, cursorParam).value;
        var pairs, next := store.backend.scanReply.pairs, store.backend.scanReply.next;
        if enableURLRewriting && RewriteFails(urlBuilder, rewrite, pairs) then
          && resp.status == StatusInternalServerError && resp.body.Text?
          && (exists k | k in pairs :: RewriteSelfLink(rewrite, ListItem(urlBuilder, k, pairs[k])) == Failure(resp.body.text))
          && store.backend.calls == old(store.backend.calls) + [GetKeyValuePairsCall(q.count, q.cursor)]
        else
          && store.backend.calls == old(store.backend.calls) + [GetKeyValuePairsCall(q.count, q.cursor), GetTotalKeysCall]
          && (store.backend.totalFault.Some? ==> resp == Error(StatusInternalServerError, InternalText))
          && (store.backend.totalFault.None? ==>
                && resp.status == StatusOK && resp.body.RedirectsJson?
                && resp.body.page.count == q.count
                && resp.body.page.cursor == q.cursorText
                && resp.body.page.nextCursor == FormatUint(next)
                && resp.body.page.totalCount == |store.backend.data|
                && (if enableURLRewriting then ListsPairsRewritten(urlBuilder, rewrite, pairs, resp.body.page.items)
                    else ListsPairs(urlBuilder, pairs, resp.body.page.items)))
    {
      var query := ParsePageQuery(countParam, cursorParam);
      if query.Failure? {
        return Error(StatusBadRequest, query.error.Message());
      }
      var q := query.value;
      var keyValuePairs, newCursor, errRedirects := store.GetRedirects(q.count, q.cursor);
      if errRedirects.Some? {
        return Error(StatusInternalServerError, ErrInternal.Message());
      }
      var redirectList, errRewrite := ListPage(urlBuilder, keyValuePairs, enableURLRewriting, rewrite);
      if errRewrite.Some? {
        return Error(StatusInternalServerError, errRewrite.value);
      }
      var nextCursor := FormatUint(newCursor);
      var totalCount, errTotalCount := store.GetTotalCount();
      if errTotalCount.Some? {
        return Error(StatusInternalServerError, ErrInternal.Message());
      }
      resp := Response(StatusOK, RedirectsJson(Redirects(q.count, redirectList, q.cursorText, nextCursor, totalCount)));
    }
  }
}
