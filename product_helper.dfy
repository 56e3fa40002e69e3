/**
 * The sync metadata ProductHelper keeps for one WooCommerce product: its
 * sync status, when it was last synced, the Google product id per target
 * country, the sync errors with the failed-attempt count and time, and its
 * channel visibility. The `mark_as_*` operations and `remove_google_id`
 * update that record in place; `is_product_synced`, `get_wc_product_id` and
 * `get_validation_errors` are queries.
 *
 * The behaviour is the one tests/Unit/Product/ProductHelperTest.php asserts;
 * the target countries and the current time are parameters.
 */
module ProductHelper {
  import opened Wrappers
  import Digits
  import Seqs

  datatype SyncStatus = Synced | NotSynced | HasErrors | Pending

  datatype ChannelVisibility = SyncAndShow | DontSyncAndShow

  /** A key of the stored errors array: an integer (a list index or a product id) or a string reason. */
  datatype ErrorKey = IntKey(n: int) | StringKey(name: string)

  /** A value of the stored errors array: one message, or the list of messages of one product. */
  datatype ErrorValue = Message(text: string) | Messages(texts: seq<string>)

  datatype ErrorEntry = ErrorEntry(key: ErrorKey, value: ErrorValue)

  /** The stored errors, in array order. */
  type Errors = seq<ErrorEntry>

  /** The reason key under which the Google product service reports an internal error. */
  const InternalErrorReason := "internalError"

  /**
   * One product's metadata. A timestamp or counter of 0 stands for a deleted
   * entry; `None` for a status or visibility that was never set.
   */
  datatype Meta = Meta(
    syncStatus: Option<SyncStatus>,
    syncedAt: nat,
    googleIds: map<string, string>,
    errors: Errors,
    failedSyncAttempts: nat,
    syncFailedAt: nat,
    visibility: Option<ChannelVisibility>)

  const BlankMeta := Meta(None, 0, map[], [], 0, 0, None)

  // ---------------------------------------------------------------------------
  // The operations, as functions of the record
  // ---------------------------------------------------------------------------

  /** `is_product_synced`: synced-at and the Google ids are both present. */
  predicate IsProductSynced(m: Meta)
  {
    m.syncedAt != 0 && m.googleIds != map[]
  }

  /** Visibility is set to "sync and show" only when none was set. */
  function EmptyVisibilityUpdated(v: Option<ChannelVisibility>): (r: Option<ChannelVisibility>)
    ensures v.None? ==> r == Some(SyncAndShow)
    ensures v.Some? ==> r == v
  {
    if v.None? then Some(SyncAndShow) else v
  }

  /** Every target country has a Google id. */
  predicate AllTargetsSynced(googleIds: map<string, string>, targetCountries: seq<string>)
  {
    forall c :: c in targetCountries ==> c in googleIds
  }

  /**
   * `mark_as_synced` with the Google product's target country and id: the
   * product is synced now, the id is added for its country, and the errors
   * and failure record are dropped once every target country has an id.
   */
  function MarkedSynced(m: Meta, targetCountry: string, googleId: string, targetCountries: seq<string>, now: nat): (r: Meta)
    requires now > 0
    ensures IsProductSynced(r)
    ensures r.syncStatus == Some(Synced) && r.syncedAt == now && r.visibility == EmptyVisibilityUpdated(m.visibility)
    ensures r.googleIds.Keys == m.googleIds.Keys + {targetCountry} && r.googleIds[targetCountry] == googleId
    ensures forall c :: c in m.googleIds && c != targetCountry ==> r.googleIds[c] == m.googleIds[c]
    ensures AllTargetsSynced(r.googleIds, targetCountries) ==>
      r.errors == [] && r.failedSyncAttempts == 0 && r.syncFailedAt == 0
    ensures !AllTargetsSynced(r.googleIds, targetCountries) ==>
      r.errors == m.errors && r.failedSyncAttempts == m.failedSyncAttempts && r.syncFailedAt == m.syncFailedAt
  {
    var ids := m.googleIds[targetCountry := googleId];
    assert targetCountry in ids;
    var complete := AllTargetsSynced(ids, targetCountries);
    Meta(Some(Synced), now, ids,
         if complete then [] else m.errors,
         if complete then 0 else m.failedSyncAttempts,
         if complete then 0 else m.syncFailedAt,
         EmptyVisibilityUpdated(m.visibility))
  }

  /** `mark_as_unsynced`: not synced, and synced-at, the ids, the errors and the failure record all gone. */
  function MarkedUnsynced(m: Meta): (r: Meta)
    ensures !IsProductSynced(r)
    ensures r.syncStatus == Some(NotSynced) && r.visibility == m.visibility
    ensures r.googleIds == map[] && r.errors == [] && r.syncedAt == 0
    ensures r.failedSyncAttempts == 0 && r.syncFailedAt == 0
  {
    Meta(Some(NotSynced), 0, map[], [], 0, 0, m.visibility)
  }

  /** `mark_as_pending`: only the status changes. */
  function MarkedPending(m: Meta): (r: Meta)
    ensures r.syncStatus == Some(Pending)
    ensures r.(syncStatus := m.syncStatus) == m
  {
    m.(syncStatus := Some(Pending))
  }

  /** The errors carry the internal-error reason key. */
  predicate HasInternalError(errors: Errors)
  {
    exists i :: 0 <= i < |errors| && errors[i].key == StringKey(InternalErrorReason)
  }

  /**
   * `mark_as_invalid`: the errors are stored, the status is "has errors",
   * visibility is set if none was, and an internal error counts one more
   * failed attempt at the current time.
   */
  function MarkedInvalid(m: Meta, errors: Errors, now: nat): (r: Meta)
    requires now > 0
    ensures r.errors == errors && r.syncStatus == Some(HasErrors)
    ensures r.visibility == EmptyVisibilityUpdated(m.visibility)
    ensures r.syncedAt == m.syncedAt && r.googleIds == m.googleIds
    ensures HasInternalError(errors) ==> r.failedSyncAttempts == m.failedSyncAttempts + 1 && r.syncFailedAt == now
    ensures !HasInternalError(errors) ==> r.failedSyncAttempts == m.failedSyncAttempts && r.syncFailedAt == m.syncFailedAt
  {
    var internal := HasInternalError(errors);
    Meta(Some(HasErrors), m.syncedAt, m.googleIds, errors,
         if internal then m.failedSyncAttempts + 1 else m.failedSyncAttempts,
         if internal then now else m.syncFailedAt,
         EmptyVisibilityUpdated(m.visibility))
  }

  /**
   * `remove_google_id` once the entry of `country` was found: the entry goes,
   * and a product left without ids is marked as unsynced.
   */
  function WithoutGoogleIdOf(m: Meta, country: string): (r: Meta)
    requires country in m.googleIds
    ensures r.googleIds == m.googleIds - {country}
    ensures r.googleIds == map[] ==> r == MarkedUnsynced(m) && !IsProductSynced(r)
    ensures r.googleIds != map[] ==> r == m.(googleIds := r.googleIds)
  {
    var rest := m.googleIds - {country};
    if rest == map[] then MarkedUnsynced(m) else m.(googleIds := rest)
  }

  // ---------------------------------------------------------------------------
  // The stored record
  // ---------------------------------------------------------------------------

  /** The product's meta record, updated in place by ProductHelper's operations. */
  class ProductMeta {
    var syncStatus: Option<SyncStatus>
    var syncedAt: nat
    var googleIds: map<string, string>
    var errors: Errors
    var failedSyncAttempts: nat
    var syncFailedAt: nat
    var visibility: Option<ChannelVisibility>

    function State(): Meta
      reads this
    {
      Meta(syncStatus, syncedAt, googleIds, errors, failedSyncAttempts, syncFailedAt, visibility)
    }

    /** A product with no metadata yet. */
    constructor ()
      ensures State() == BlankMeta
    {
      syncStatus, syncedAt, googleIds := None, 0, map[];
      errors, failedSyncAttempts, syncFailedAt, visibility := [], 0, 0, None;
    }

    /** `update_empty_visibility`. */
    method UpdateEmptyVisibility()
      modifies this
      ensures State() == old(State()).(visibility := EmptyVisibilityUpdated(old(visibility)))
    {
      if visibility.None? {
        visibility := Some(SyncAndShow);
      }
    }

    /** `delete_errors`, `delete_failed_sync_attempts` and `delete_sync_failed_at`. */
    method DeleteFailureRecord()
      modifies this
      ensures State() == old(State()).(errors := [], failedSyncAttempts := 0, syncFailedAt := 0)
    {
      errors := [];
      failedSyncAttempts := 0;
      syncFailedAt := 0;
    }

    method MarkAsSynced(targetCountry: string, googleId: string, targetCountries: seq<string>, now: nat)
      requires now > 0
      modifies this
      ensures State() == MarkedSynced(old(State()), targetCountry, googleId, targetCountries, now)
    {
      syncedAt := now;
      syncStatus := Some(Synced);
      UpdateEmptyVisibility();
      googleIds := googleIds[targetCountry := googleId];
      // Drop the failure record once the product is synced in every target country.
      if forall c | c in targetCountries :: c in googleIds {
        DeleteFailureRecord();
      }
    }

    method MarkAsUnsynced()
      modifies this
      ensures State() == MarkedUnsynced(old(State()))
    {
      syncStatus := Some(NotSynced);
      syncedAt := 0;
      googleIds := map[];
      DeleteFailureRecord();
    }

    method MarkAsPending()
      modifies this
      ensures State() == MarkedPending(old(State()))
    {
      syncStatus := Some(Pending);
    }

    method MarkAsInvalid(newErrors: Errors, now: nat)
      requires now > 0
      modifies this
      ensures State() == MarkedInvalid(old(State()), newErrors, now)
    {
      errors := newErrors;
      syncStatus := Some(HasErrors);
      UpdateEmptyVisibility();
      if exists i | 0 <= i < |newErrors| :: newErrors[i].key == StringKey(InternalErrorReason) {
        failedSyncAttempts := failedSyncAttempts + 1;
        syncFailedAt := now;
      }
    }

    /**
     * `remove_google_id`: the entry holding `googleId`, if any, is removed;
     * with no entry holding it nothing changes.
     */
    method RemoveGoogleId(googleId: string)
      modifies this
      ensures (forall c :: c in old(googleIds) ==> old(googleIds)[c] != googleId) ==> State() == old(State())
      ensures (exists c :: c in old(googleIds) && old(googleIds)[c] == googleId) ==>
        exists c :: c in old(googleIds) && old(googleIds)[c] == googleId && State() == WithoutGoogleIdOf(old(State()), c)
    {
      if c :| c in googleIds && googleIds[c] == googleId {
        var rest := googleIds - {c};
        if rest == map[] {
          MarkAsUnsynced();
        } else {
          googleIds := rest;
        }
      }
    }
  }

  // ---------------------------------------------------------------------------
  // What the operations promise together
  // ---------------------------------------------------------------------------

  /**
   * A synced product stops being synced when its Google ids or its synced-at
   * are deleted, and when it is marked as unsynced.
   */
  lemma SyncedUntilIdsOrTimeDeleted(m: Meta, targetCountry: string, googleId: string, targetCountries: seq<string>, now: nat)
    requires now > 0
    ensures var s := MarkedSynced(m, targetCountry, googleId, targetCountries, now);
      && IsProductSynced(s)
      && !IsProductSynced(s.(googleIds := map[]))
      && !IsProductSynced(s.(syncedAt := 0))
      && !IsProductSynced(MarkedUnsynced(s))
  {
  }

  /**
   * Errors survive a sync that leaves a target country without an id, and
   * go with the sync that completes the target countries.
   */
  lemma {:induction false} ErrorsClearedWhenAllTargetsSynced(m: Meta, first: string, second: string,
                                                             id1: string, id2: string, now: nat)
    requires now > 0 && first != second && m.googleIds == map[]
    ensures var s1 := MarkedSynced(m, first, id1, [second, first], now);
      var s2 := MarkedSynced(s1, second, id2, [second, first], now);
      && s1.errors == m.errors && s1.failedSyncAttempts == m.failedSyncAttempts && s1.syncFailedAt == m.syncFailedAt
      && s2.errors == [] && s2.failedSyncAttempts == 0 && s2.syncFailedAt == 0
      && s2.googleIds == map[first := id1, second := id2]
  {
    var s1 := MarkedSynced(m, first, id1, [second, first], now);
    assert second !in s1.googleIds;
    assert !AllTargetsSynced(s1.googleIds, [second, first]);
  }

  /** Removing the only Google id leaves the product not synced, and removing one of several keeps the others. */
  lemma RemovingGoogleIds(m: Meta, country: string)
    requires country in m.googleIds
    ensures m.googleIds.Keys == {country} ==> !IsProductSynced(WithoutGoogleIdOf(m, country))
    ensures forall c :: c in m.googleIds && c != country ==>
      c in WithoutGoogleIdOf(m, country).googleIds && WithoutGoogleIdOf(m, country).googleIds[c] == m.googleIds[c]
  {
    if m.googleIds.Keys == {country} {
      assert m.googleIds - {country} == map[];
    }
  }

  // ---------------------------------------------------------------------------
  // get_wc_product_id
  // ---------------------------------------------------------------------------

  /** The part of a Google id after its last `:`. */
  function LastToken(s: string): (t: string)
    ensures ':' !in t
    ensures |t| <= |s| && t == s[|s| - |t|..]
    ensures |t| == |s| || s[|s| - |t| - 1] == ':'
  {
    if s == [] || s[|s| - 1] == ':' then [] else LastToken(s[..|s| - 1]) + [s[|s| - 1]]
  }

  /** The prefix the plugin puts before a WooCommerce product id. */
  const WcPrefix := "gla_"

  /**
   * `get_wc_product_id`: the WooCommerce product id at the end of a Google
   * product id (`online:en:US:gla_1234567`), 0 when the last token is not the
   * prefix followed by digits.
   */
  function GetWcProductId(googleId: string): (id: nat)
    ensures id != 0 ==> |LastToken(googleId)| > |WcPrefix| && LastToken(googleId)[..|WcPrefix|] == WcPrefix
  {
    var token := LastToken(googleId);
    if |token| > |WcPrefix| && token[..|WcPrefix|] == WcPrefix && Digits.AllDigits(token[|WcPrefix|..])
    then Digits.Value(token[|WcPrefix|..])
    else 0
  }

  /** The token after the last `:` is the text after the final `:`. */
  lemma {:induction false} LastTokenAfterColon(s: string, t: string)
    requires ':' !in t
    ensures LastToken(s + [':'] + t) == t
  {
    if t != [] {
      var n := |t| - 1;
      assert (s + [':'] + t)[..|s + [':'] + t| - 1] == s + [':'] + t[..n];
      LastTokenAfterColon(s, t[..n]);
    } else {
      assert s + [':'] + t == s + [':'];
    }
  }

  /** A Google id built from a WooCommerce product id gives that id back. */
  lemma GetWcProductIdRoundTrip(channelPrefix: string, productId: nat)
    ensures GetWcProductId(channelPrefix + ":" + WcPrefix + Digits.ToDigits(productId)) == productId
  {
    var digits := Digits.ToDigits(productId);
    var token := WcPrefix + digits;
    assert ':' !in token by {
      assert forall i :: 0 <= i < |digits| ==> Digits.IsDigit(digits[i]);
    }
    assert channelPrefix + ":" + WcPrefix + digits == channelPrefix + [':'] + token;
    LastTokenAfterColon(channelPrefix, token);
    assert token[|WcPrefix|..] == digits;
    Digits.ValueOfToDigits(productId);
  }

  /**
   * A Google id whose text after the prefix does not start with a digit, such
   * as `online:en:US:gla_invalid_id_1`, gives 0.
   */
  lemma GetWcProductIdOfNonNumericSuffix(channelPrefix: string, suffix: string)
    requires ':' !in suffix
    requires suffix == [] || !Digits.IsDigit(suffix[0])
    ensures GetWcProductId(channelPrefix + ":" + WcPrefix + suffix) == 0
  {
    var token := WcPrefix + suffix;
    assert channelPrefix + ":" + WcPrefix + suffix == channelPrefix + [':'] + token;
    LastTokenAfterColon(channelPrefix, token);
    assert token[|WcPrefix|..] == suffix;
  }

  // ---------------------------------------------------------------------------
  // get_validation_errors
  // ---------------------------------------------------------------------------

  /** The stored errors as they are, or the merged messages of errors keyed by product id. */
  datatype ValidationErrors = AsStored(errors: Errors) | Merged(messages: seq<string>)

  /** The errors are keyed by product id: the first key is a non-zero integer. */
  predicate KeyedByProductId(errors: Errors)
  {
    errors != [] && errors[0].key.IntKey? && errors[0].key.n != 0
  }

  /** The message lists of the entries, or the key of the first entry whose value is not a list. */
  function MessageLists(errors: Errors): (r: Result<seq<seq<string>>, ErrorKey>)
    ensures r.Success? <==> forall i :: 0 <= i < |errors| ==> errors[i].value.Messages?
    ensures r.Success? ==> |r.value| == |errors| && forall i :: 0 <= i < |errors| ==> r.value[i] == errors[i].value.texts
    ensures r.Failure? ==> exists i :: 0 <= i < |errors| && errors[i].value.Message? && errors[i].key == r.error
  {
    if errors == [] then Success([])
    else
      var n := |errors| - 1;
      match MessageLists(errors[..n])
      case Failure(k) => Failure(k)
      case Success(lists) =>
        if errors[n].value.Message? then Failure(errors[n].key) else Success(lists + [errors[n].value.texts])
  }

  /**
   * `get_validation_errors`: errors keyed by product id become the distinct
   * messages of all products, first occurrence first (merging a value that is
   * not a list fails); any other errors come back as stored.
   */
  function GetValidationErrors(errors: Errors): (r: Result<ValidationErrors, ErrorKey>)
    ensures !KeyedByProductId(errors) ==> r == Success(AsStored(errors))
    ensures KeyedByProductId(errors) ==>
      (r.Success? <==> forall i :: 0 <= i < |errors| ==> errors[i].value.Messages?)
    ensures KeyedByProductId(errors) && r.Success? ==>
      && r.value.Merged?
      && Seqs.NoDuplicates(r.value.messages)
      && forall msg :: msg in r.value.messages <==>
           exists i :: 0 <= i < |errors| && errors[i].value.Messages? && msg in errors[i].value.texts
  {
    if !KeyedByProductId(errors) then Success(AsStored(errors))
    else
      match MessageLists(errors)
      case Failure(k) => Failure(k)
      case Success(lists) =>
        var merged := Seqs.Unique(Seqs.Flatten(lists));
        assert forall msg :: msg in merged <==> exists i :: 0 <= i < |errors| && msg in errors[i].value.texts by {
          forall msg
            ensures msg in merged <==> exists i :: 0 <= i < |errors| && msg in errors[i].value.texts
          {
            if msg in merged {
              var l :| l in lists && msg in l;
              var i :| 0 <= i < |lists| && lists[i] == l;
              assert msg in errors[i].value.texts;
            }
            if exists i :: 0 <= i < |errors| && msg in errors[i].value.texts {
              var i :| 0 <= i < |errors| && msg in errors[i].value.texts;
              assert lists[i] in lists;
            }
          }
        }
        Success(Merged(merged))
  }

  /** The errors of the tests keyed by product ids: 1111, 1112 and 1113. */
  function ProductKeyedErrors(): Errors
  {
    [ErrorEntry(IntKey(1111), Messages(["Variation Error 1", "Variation Error 2"])),
     ErrorEntry(IntKey(1112), Messages(["Variation Error 1", "Variation Error 3"])),
     ErrorEntry(IntKey(1113), Messages(["Variation Error 1", "Variation Error 4"]))]
  }

  /** Errors keyed by product ids come back as the distinct messages of all products. */
  lemma ValidationErrorsOfProductKeyedErrors()
    ensures var r := GetValidationErrors(ProductKeyedErrors());
      && r.Success? && r.value.Merged?
      && forall msg :: msg in r.value.messages <==>
           msg in {"Variation Error 1", "Variation Error 2", "Variation Error 3", "Variation Error 4"}
  {
    var errors := ProductKeyedErrors();
    assert KeyedByProductId(errors);
    assert forall i :: 0 <= i < |errors| ==> errors[i].value.Messages?;
    var r := GetValidationErrors(errors);
    var expected := {"Variation Error 1", "Variation Error 2", "Variation Error 3", "Variation Error 4"};
    forall msg
      ensures msg in r.value.messages <==> msg in expected
    {
      if msg in r.value.messages {
        var i :| 0 <= i < |errors| && errors[i].value.Messages? && msg in errors[i].value.texts;
        assert i == 0 || i == 1 || i == 2;
      }
      if msg in expected {
        assert msg in errors[0].value.texts || msg in errors[1].value.texts || msg in errors[2].value.texts;
      }
    }
  }

  /** Errors keyed by list index come back as stored. */
  lemma ValidationErrorsOfIndexKeyedErrors()
    ensures var errors := [
        ErrorEntry(IntKey(0), Messages(["Variation Error 1", "Variation Error 2"])),
        ErrorEntry(IntKey(1), Messages(["Variation Error 1", "Variation Error 3"])),
        ErrorEntry(IntKey(2), Messages(["Variation Error 1", "Variation Error 4"]))];
      GetValidationErrors(errors) == Success(AsStored(errors))
  {
  }
}
