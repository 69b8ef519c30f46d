/**
 * Whole request sequences against a fresh store, each stating the answers the
 * handlers give one after the other: create then replace then read, delete
 * then read, list, follow a listed id, and a store whose reads fail,
 * answered differently by the two revisions.
 */
module Scenarios {
  import opened Wrappers
  import opened GoStrings
  import opened Base64
  import opened Decimal
  import opened Models
  import opened Http
  import opened Store
  import opened UrlBuilder
  import opened RedirectsApi
  import LegacyApi

  /** A first upsert of a key creates it (201), a second replaces it (200), and a read then answers the second target. */
  method CreateReplaceRead(id: GoString, to1: GoString, to2: GoString)
    returns (created: Response, replaced: Response, read: Response)
    requires IdAccepted(id)
    requires IsValidRedirect(CheckId(id).value, to1) && IsValidRedirect(CheckId(id).value, to2)
    ensures created == Response(StatusCreated, NoBody)
    ensures replaced == Response(StatusOK, NoBody)
    ensures read == Response(StatusOK, RedirectJson(Redirect(CheckId(id).value, to2, "", NoLinks)))
  {
    var from := CheckId(id).value;
    var backend := new Backend(map[]);
    var store := new Datastore(backend);
    var api := new RedirectAPI(store, NewBuilder(PublicRedirectsURL), false);
    AbsentKeyReply(map[], from);
    created := api.UpsertRedirect(id, Parsed(from, to1));
    replaced := api.UpsertRedirect(id, Parsed(from, to2));
    read := api.GetRedirect(id);
  }

  /** Deleting a stored redirect answers 204; reading it or deleting it again then answers 404 with the store's error. */
  method DeleteThenRead(id: GoString, to: GoString)
    returns (deleted: Response, read: Response, deletedAgain: Response)
    requires IdAccepted(id)
    requires IsValidRedirect(CheckId(id).value, to)
    ensures deleted == Response(StatusNoContent, NoBody)
    ensures read == Error(StatusNotFound, KeyNotFound(CheckId(id).value))
    ensures deletedAgain == Error(StatusNotFound, KeyNotFound(CheckId(id).value))
  {
    var from := CheckId(id).value;
    var backend := new Backend(map[from := to]);
    var store := new Datastore(backend);
    var api := new RedirectAPI(store, NewBuilder(PublicRedirectsURL), false);
    deleted := api.DeleteRedirect(id);
    AbsentKeyReply(backend.data, from);
    read := api.GetRedirect(id);
    deletedAgain := api.DeleteRedirect(id);
  }

  /** A listing of a single pair is that pair's list item alone. */
  lemma SinglePairListing(b: Builder, from: GoString, to: GoString, items: seq<Redirect>)
    requires ListsPairs(b, map[from := to], items)
    ensures items == [ListItem(b, from, to)]
  {
    assert |items| == 1 && items[0].from in map[from := to];
  }

  /**
   * Listing a store that holds one redirect with default query parameters:
   * count 10, cursor "0", next cursor "0", total 1 and the one item
   * (`PublicListItem` says what its id and self link are).
   */
  method ListOne(from: GoString, to: GoString) returns (listed: Response)
    requires IsValidRedirect(from, to)
    ensures listed == Response(StatusOK, RedirectsJson(Redirects(10, [ListItem(NewBuilder(PublicRedirectsURL), from, to)], "0", "0", 1)))
  {
    var backend := new Backend(map[from := to]);
    backend.scanReply := Scanned(map[from := to], 0);
    var store := new Datastore(backend);
    var builder := NewBuilder(PublicRedirectsURL);
    var api := new RedirectAPI(store, builder, false);
    PageQueryDefaults();
    assert FormatUint(0) == "0";
    listed := api.GetRedirects("", "", h => Success(h));
    SinglePairListing(builder, from, to, listed.body.page.items);
  }

  /**
   * Reading a stored redirect by the id the listing gives it answers the
   * redirect when the id has no '+' or '/', and 400 otherwise.
   */
  method FollowListedId(from: GoString, to: GoString) returns (followed: Response)
    requires IsValidRedirect(from, to)
    ensures HasNoStdOnlyDigits(EncodeBase64(from)) ==> followed == Response(StatusOK, RedirectJson(Redirect(from, to, "", NoLinks)))
    ensures !HasNoStdOnlyDigits(EncodeBase64(from)) ==> followed.status == StatusBadRequest
  {
    var backend := new Backend(map[from := to]);
    var store := new Datastore(backend);
    var api := new RedirectAPI(store, NewBuilder(PublicRedirectsURL), false);
    ListedIdAccepted(from);
    followed := api.GetRedirect(EncodeBase64(from));
  }

  /**
   * A store whose reads fail with an error that does not say "not found": the
   * current revision answers both upsert and delete with a 500 carrying that
   * error and writes nothing; the older revision still writes the upsert
   * (201, the failed probe reading as empty) and answers the delete with
   * "failed to check redirect existence", the text the delete test looks for,
   * which a short store error does not contain.
   */
  method FailingReads(id: GoString, to: GoString, readErr: GoString)
    returns (upserted: Response, deleted: Response, legacyUpserted: Response, legacyDeleted: Response, legacyData: map<GoString, GoString>)
    requires IdAccepted(id)
    requires IsValidRedirect(CheckId(id).value, to)
    requires !Contains(readErr, NotFoundMarker)
    requires |readErr| < |LegacyApi.FailedToCheckText|
    ensures upserted == Error(StatusInternalServerError, readErr)
    ensures deleted == Error(StatusInternalServerError, readErr)
    ensures !Contains(deleted.body.text, LegacyApi.FailedToCheckText)
    ensures legacyUpserted == Response(StatusCreated, NoBody)
    ensures legacyData == map[CheckId(id).value := to]
    ensures legacyDeleted == Error(StatusInternalServerError, LegacyApi.FailedToCheckText)
  {
    var from := CheckId(id).value;
    var backend := new Backend(map[]);
    backend.getFault := Some(readErr);
    var store := new Datastore(backend);
    var api := new RedirectAPI(store, NewBuilder(PublicRedirectsURL), false);
    upserted := api.UpsertRedirect(id, Parsed(from, to));
    deleted := api.DeleteRedirect(id);
    ShorterDoesNotContain(readErr, LegacyApi.FailedToCheckText);
    var legacy := new LegacyApi.API(store);
    LegacyApi.AcceptsCurrentIds(id);
    legacyUpserted := legacy.UpsertRedirect(id, Parsed(from, to));
    legacyData := backend.data;
    legacyDeleted := legacy.DeleteRedirect(id);
  }
}
