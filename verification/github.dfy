/**
 * Backup to and restore from a remote gist, as rules over the local
 * key/value store. The HTTP exchange itself is not modelled: the remote
 * store's answer is an input.
 */
module GitHub {
  import opened Wrappers
  import opened Text

  /** The local store: string keys to raw string values. */
  type Store = map<string, string>

  const CurrentWeekKey: string := "currentWeekData"
  const HistoryKey: string := "weekHistory"
  const SettingsKey: string := "scorecardSettings"
  const TokenKey: string := "githubToken"
  const GistIdKey: string := "gistId"

  /** The three synchronised documents. */
  const DocumentKeys: set<string> := {CurrentWeekKey, HistoryKey, SettingsKey}

  const CurrentWeekFile: string := "current-week.json"
  const HistoryFile: string := "history.json"
  const SettingsFile: string := "settings.json"

  const Description: string := "Trading Scorecard Data - Enhanced"

  /** What a push uploads for a document that is not stored. */
  const ObjectPlaceholder: string := "{}"
  const ListPlaceholder: string := "[]"

  /** The stored string, or `None` (JavaScript `null`) when the key is absent. */
  function Read(s: Store, key: string): (v: Option<string>)
    ensures v.Some? <==> key in s
    ensures v.Some? ==> v.value == s[key]
  {
    if key in s then Some(s[key]) else None
  }

  /** JavaScript truthiness of a string or `null`: present and non-empty. */
  predicate Truthy(v: Option<string>) {
    v.Some? && v.value != ""
  }

  /**
   * The gist id a sync uses: the trimmed text of the gist-id field when the
   * page has that field (`Some`), otherwise the stored id.
   */
  function GistIdOf(s: Store, field: Option<string>): (id: Option<string>)
    ensures field.Some? ==> id == Some(Trim(field.value))
    ensures field.None? ==> id == Read(s, GistIdKey)
  {
    match field
    case Some(text) => Some(Trim(text))
    case None => Read(s, GistIdKey)
  }

  datatype SyncError =
    | MissingToken
    | MissingGistId
    | NothingToSave
    | ApiError(status: int)   // a response outside 2xx
    | TransportFailure        // the request or the decoding of its answer failed

  /** The remote store's answer to one request. */
  datatype Response<T> = Ok(body: T) | NotOk(status: int) | Failed

  datatype GistFile = GistFile(content: Option<string>)

  /** The store after a sync, and the error shown, if any. */
  datatype SyncResult = SyncResult(store: Store, error: Option<SyncError>)

  // ---------------------------------------------------------------------
  // Pull
  // ---------------------------------------------------------------------

  /** The remote file is present and its content is not blank. */
  predicate Usable(files: map<string, GistFile>, name: string) {
    name in files && files[name].content.Some? && !IsBlank(files[name].content.value)
  }

  /**
   * The remote file is adopted. Without `skipPlaceholders` that is exactly
   * `Usable`; with it, a current-week or settings file holding only the
   * placeholder a push uploads for a missing document is also passed over.
   */
  predicate Adopted(files: map<string, GistFile>, name: string, skipPlaceholders: bool) {
    && Usable(files, name)
    && !(skipPlaceholders && name != HistoryFile && files[name].content.value == ObjectPlaceholder)
  }

  function AdoptFile(s: Store, files: map<string, GistFile>, name: string, key: string, skipPlaceholders: bool): Store
  {
    if Adopted(files, name, skipPlaceholders) then s[key := files[name].content.value] else s
  }

  /** Adopts the three files in turn, then records the gist id. */
  function ApplyFiles(s: Store, files: map<string, GistFile>, gistId: string, skipPlaceholders: bool): Store {
    var s1 := AdoptFile(s, files, CurrentWeekFile, CurrentWeekKey, skipPlaceholders);
    var s2 := AdoptFile(s1, files, HistoryFile, HistoryKey, skipPlaceholders);
    var s3 := AdoptFile(s2, files, SettingsFile, SettingsKey, skipPlaceholders);
    s3[GistIdKey := gistId]
  }

  lemma ApplyFilesEffect(s: Store, files: map<string, GistFile>, gistId: string, skipPlaceholders: bool)
    ensures PulledInto(s, ApplyFiles(s, files, gistId, skipPlaceholders), files, gistId, skipPlaceholders)
  {
    ApplyFilesDocuments(s, files, gistId, skipPlaceholders);
    ApplyFilesOtherKeys(s, files, gistId, skipPlaceholders);
  }

  lemma ApplyFilesDocuments(s: Store, files: map<string, GistFile>, gistId: string, skipPlaceholders: bool)
    ensures var r := ApplyFiles(s, files, gistId, skipPlaceholders);
            && DocumentFollows(s, r, files, CurrentWeekFile, CurrentWeekKey, skipPlaceholders)
            && DocumentFollows(s, r, files, HistoryFile, HistoryKey, skipPlaceholders)
            && DocumentFollows(s, r, files, SettingsFile, SettingsKey, skipPlaceholders)
  {
    var s1 := AdoptFile(s, files, CurrentWeekFile, CurrentWeekKey, skipPlaceholders);
    var s2 := AdoptFile(s1, files, HistoryFile, HistoryKey, skipPlaceholders);
    var s3 := AdoptFile(s2, files, SettingsFile, SettingsKey, skipPlaceholders);
    var r := s3[GistIdKey := gistId];
    KeysDistinct();
    AdoptFileEffect(s, files, CurrentWeekFile, CurrentWeekKey, skipPlaceholders);
    AdoptFileEffect(s1, files, HistoryFile, HistoryKey, skipPlaceholders);
    AdoptFileEffect(s2, files, SettingsFile, SettingsKey, skipPlaceholders);
    assert Read(r, CurrentWeekKey) == Read(s1, CurrentWeekKey);
    assert Read(r, HistoryKey) == Read(s2, HistoryKey);
    assert Read(r, SettingsKey) == Read(s3, SettingsKey);
  }

  lemma ApplyFilesOtherKeys(s: Store, files: map<string, GistFile>, gistId: string, skipPlaceholders: bool)
    ensures var r := ApplyFiles(s, files, gistId, skipPlaceholders);
            && Read(r, GistIdKey) == Some(gistId)
            && forall k :: k !in DocumentKeys && k != GistIdKey ==> Read(r, k) == Read(s, k)
  {
    var s1 := AdoptFile(s, files, CurrentWeekFile, CurrentWeekKey, skipPlaceholders);
    var s2 := AdoptFile(s1, files, HistoryFile, HistoryKey, skipPlaceholders);
    var s3 := AdoptFile(s2, files, SettingsFile, SettingsKey, skipPlaceholders);
    var r := s3[GistIdKey := gistId];
    forall k | k !in DocumentKeys && k != GistIdKey
      ensures Read(r, k) == Read(s, k)
    {
      AdoptFileEffect(s, files, CurrentWeekFile, CurrentWeekKey, skipPlaceholders);
      AdoptFileEffect(s1, files, HistoryFile, HistoryKey, skipPlaceholders);
      AdoptFileEffect(s2, files, SettingsFile, SettingsKey, skipPlaceholders);
    }
  }

  /** The shared pull procedure; `skipPlaceholders` selects the corrected adoption rule. */
  function PullWith(s: Store, field: Option<string>, response: Response<map<string, GistFile>>, skipPlaceholders: bool): (r: SyncResult)
    ensures !Truthy(Read(s, TokenKey)) ==> r == SyncResult(s, Some(MissingToken))
    ensures Truthy(Read(s, TokenKey)) && !Truthy(GistIdOf(s, field)) ==> r == SyncResult(s, Some(MissingGistId))
    ensures PullReady(s, field) && response.NotOk? ==> r == SyncResult(s, Some(ApiError(response.status)))
    ensures PullReady(s, field) && response.Failed? ==> r == SyncResult(s, Some(TransportFailure))
    ensures PullReady(s, field) && response.Ok? ==>
              r.error.None? && PulledInto(s, r.store, response.body, GistIdOf(s, field).value, skipPlaceholders)
  {
    var gistId := GistIdOf(s, field);
    if !Truthy(Read(s, TokenKey)) then SyncResult(s, Some(MissingToken))
    else if !Truthy(gistId) then SyncResult(s, Some(MissingGistId))
    else
      match response
      case NotOk(status) => SyncResult(s, Some(ApiError(status)))
      case Failed => SyncResult(s, Some(TransportFailure))
      case Ok(files) =>
        ApplyFilesEffect(s, files, gistId.value, skipPlaceholders);
        SyncResult(ApplyFiles(s, files, gistId.value, skipPlaceholders), None)
  }

  /** The five keys are distinct strings. */
  lemma KeysDistinct()
    ensures CurrentWeekKey != HistoryKey && CurrentWeekKey != SettingsKey && HistoryKey != SettingsKey
    ensures GistIdKey !in DocumentKeys && TokenKey !in DocumentKeys && TokenKey != GistIdKey
  {
    assert |CurrentWeekKey| == 15 && |HistoryKey| == 11 && |SettingsKey| == 17;
    assert |TokenKey| == 11 && |GistIdKey| == 6;
    assert HistoryKey[0] == 'w' && TokenKey[0] == 'g';
  }

  /** Adopting one file touches one key only. */
  lemma AdoptFileEffect(s: Store, files: map<string, GistFile>, name: string, key: string, skipPlaceholders: bool)
    ensures var r := AdoptFile(s, files, name, key, skipPlaceholders);
            && (Adopted(files, name, skipPlaceholders) ==> Read(r, key) == files[name].content)
            && (!Adopted(files, name, skipPlaceholders) ==> Read(r, key) == Read(s, key))
            && forall k :: k != key ==> Read(r, k) == Read(s, k)
  {
  }

  /** The local document `key` after a pull: the remote content when adopted, otherwise what was stored. */
  predicate DocumentFollows(s: Store, r: Store, files: map<string, GistFile>, name: string, key: string, skipPlaceholders: bool) {
    if Adopted(files, name, skipPlaceholders) then Read(r, key) == files[name].content
    else Read(r, key) == Read(s, key)
  }

  /** The whole effect of a successful pull on the store. */
  ghost predicate PulledInto(s: Store, r: Store, files: map<string, GistFile>, gistId: string, skipPlaceholders: bool) {
    && DocumentFollows(s, r, files, CurrentWeekFile, CurrentWeekKey, skipPlaceholders)
    && DocumentFollows(s, r, files, HistoryFile, HistoryKey, skipPlaceholders)
    && DocumentFollows(s, r, files, SettingsFile, SettingsKey, skipPlaceholders)
    && Read(r, GistIdKey) == Some(gistId)
    && forall k :: k !in DocumentKeys && k != GistIdKey ==> Read(r, k) == Read(s, k)
  }

  /** Both credentials are there, so a pull sends its request. */
  predicate PullReady(s: Store, field: Option<string>) {
    Truthy(Read(s, TokenKey)) && Truthy(GistIdOf(s, field))
  }

  /**
   * Restore from the gist. Without a token, or without a gist id, nothing
   * changes; an error answer changes nothing; a successful answer overwrites
   * each document whose remote file is present and not blank, leaves every
   * other key alone, and stores the gist id used.
   */
  function Pull(s: Store, field: Option<string>, response: Response<map<string, GistFile>>): (r: SyncResult)
    ensures !Truthy(Read(s, TokenKey)) ==> r == SyncResult(s, Some(MissingToken))
    ensures Truthy(Read(s, TokenKey)) && !Truthy(GistIdOf(s, field)) ==> r == SyncResult(s, Some(MissingGistId))
    ensures PullReady(s, field) && response.NotOk? ==> r == SyncResult(s, Some(ApiError(response.status)))
    ensures PullReady(s, field) && response.Failed? ==> r == SyncResult(s, Some(TransportFailure))
    ensures PullReady(s, field) && response.Ok? ==>
              r.error.None? && PulledInto(s, r.store, response.body, GistIdOf(s, field).value, false)
  {
    PullWith(s, field, response, false)
  }

  /**
   * The corrected pull: as `Pull`, except that a current-week or settings
   * file holding only the push placeholder `{}` is not adopted.
   */
  function PullSkippingPlaceholders(s: Store, field: Option<string>, response: Response<map<string, GistFile>>): (r: SyncResult)
    ensures !PullReady(s, field) || !response.Ok? ==> r == Pull(s, field, response)
    ensures PullReady(s, field) && response.Ok? ==>
              r.error.None? && PulledInto(s, r.store, response.body, GistIdOf(s, field).value, true)
  {
    PullWith(s, field, response, true)
  }

  // ---------------------------------------------------------------------
  // Push
  // ---------------------------------------------------------------------

  datatype Verb = Create | Update(id: string)

  datatype Request = Request(verb: Verb, token: string, description: string, isPublic: bool, files: map<string, string>)

  /** JavaScript `v || placeholder` on a string or `null`. */
  function ContentOr(v: Option<string>, placeholder: string): (c: string)
    ensures Truthy(v) ==> c == v.value
    ensures !Truthy(v) ==> c == placeholder
  {
    if Truthy(v) then v.value else placeholder
  }

  /**
   * The request a push sends, or why it sends none: a token is required, and
   * at least one of the current week and the history must be stored. The
   * three documents are uploaded as stored, a missing one as its
   * placeholder; a known gist is updated, otherwise a new one is created.
   */
  function PushRequest(s: Store, field: Option<string>): (r: Result<Request, SyncError>)
    ensures !Truthy(Read(s, TokenKey)) ==> r == Failure(MissingToken)
    ensures Truthy(Read(s, TokenKey)) && !Truthy(Read(s, CurrentWeekKey)) && !Truthy(Read(s, HistoryKey)) ==>
              r == Failure(NothingToSave)
    ensures r.Success? ==>
              && Truthy(Read(s, TokenKey)) && (Truthy(Read(s, CurrentWeekKey)) || Truthy(Read(s, HistoryKey)))
              && r.value.token == s[TokenKey]
              && r.value.description == Description && !r.value.isPublic
              && r.value.files.Keys == {CurrentWeekFile, HistoryFile, SettingsFile}
              && r.value.files[CurrentWeekFile] == ContentOr(Read(s, CurrentWeekKey), ObjectPlaceholder)
              && r.value.files[HistoryFile] == ContentOr(Read(s, HistoryKey), ListPlaceholder)
              && r.value.files[SettingsFile] == ContentOr(Read(s, SettingsKey), ObjectPlaceholder)
              && (Truthy(GistIdOf(s, field)) ==> r.value.verb == Update(GistIdOf(s, field).value))
              && (!Truthy(GistIdOf(s, field)) ==> r.value.verb == Create)
  {
    var token := Read(s, TokenKey);
    var gistId := GistIdOf(s, field);
    if !Truthy(token) then Failure(MissingToken)
    else if !Truthy(Read(s, CurrentWeekKey)) && !Truthy(Read(s, HistoryKey)) then Failure(NothingToSave)
    else
      var files := map[
        CurrentWeekFile := ContentOr(Read(s, CurrentWeekKey), ObjectPlaceholder),
        HistoryFile := ContentOr(Read(s, HistoryKey), ListPlaceholder),
        SettingsFile := ContentOr(Read(s, SettingsKey), ObjectPlaceholder)];
      var verb := if Truthy(gistId) then Update(gistId.value) else Create;
      Success(Request(verb, token.value, Description, false, files))
  }

  /**
   * Backup to the gist. `response` answers the request `PushRequest` built;
   * on success it carries the gist's id, which is stored, and nothing else
   * changes locally. Any refusal or error answer leaves the store as it was.
   */
  function Push(s: Store, field: Option<string>, response: Response<string>): (r: SyncResult)
    ensures PushRequest(s, field).Failure? ==> r == SyncResult(s, Some(PushRequest(s, field).error))
    ensures PushRequest(s, field).Success? && response.NotOk? ==> r == SyncResult(s, Some(ApiError(response.status)))
    ensures PushRequest(s, field).Success? && response.Failed? ==> r == SyncResult(s, Some(TransportFailure))
    ensures PushRequest(s, field).Success? && response.Ok? ==>
              && r.error.None?
              && Read(r.store, GistIdKey) == Some(response.body)
              && forall k :: k != GistIdKey ==> Read(r.store, k) == Read(s, k)
  {
    match PushRequest(s, field)
    case Failure(e) => SyncResult(s, Some(e))
    case Success(_) =>
      match response
      case NotOk(status) => SyncResult(s, Some(ApiError(status)))
      case Failed => SyncResult(s, Some(TransportFailure))
      case Ok(id) => SyncResult(s[GistIdKey := id], None)
  }

  /** The gist's files once a push request has been accepted. */
  function Uploaded(req: Request): (files: map<string, GistFile>)
    ensures files.Keys == req.files.Keys
    ensures forall n :: n in req.files ==> files[n] == GistFile(Some(req.files[n]))
  {
    map n | n in req.files :: GistFile(Some(req.files[n]))
  }

  // ---------------------------------------------------------------------
  // Push followed by pull
  // ---------------------------------------------------------------------

  /** The store and gist-id field let a backup go out: a token is present and there is data to upload. */
  predicate Pushable(s: Store, field: Option<string>) {
    PushRequest(s, field).Success?
  }

  lemma PlaceholdersNotBlank()
    ensures !IsBlank(ObjectPlaceholder) && !IsBlank(ListPlaceholder)
  {
    var o := ObjectPlaceholder;
    var l := ListPlaceholder;
    assert o[0] == '{' && o[1] == '}' && |o| == 2;
    assert l[0] == '[' && l[1] == ']' && |l| == 2;
    assert !IsWhitespace(o[0]) && !IsWhitespace(o[1]);
    assert !IsWhitespace(l[0]) && !IsWhitespace(l[1]);
    assert SkipForward(o, 0) == 0 && SkipBackward(o, 0, |o|) == |o|;
    assert SkipForward(l, 0) == 0 && SkipBackward(l, 0, |l|) == |l|;
  }

  /** One document through a push and the pull of what it uploaded. */
  lemma RoundTripDocument(s: Store, s1: Store, r: Store, files: map<string, GistFile>,
                          name: string, key: string, placeholder: string, skipPlaceholders: bool)
    requires Read(s1, key) == Read(s, key)
    requires name in files && files[name] == GistFile(Some(ContentOr(Read(s, key), placeholder)))
    requires !IsBlank(placeholder)
    requires DocumentFollows(s1, r, files, name, key, skipPlaceholders)
    ensures skipPlaceholders && name != HistoryFile && placeholder == ObjectPlaceholder ==>
              Read(r, key) == Read(s, key)
    ensures !(skipPlaceholders && name != HistoryFile && placeholder == ObjectPlaceholder) ==>
              Read(r, key) == Some(ContentOr(Read(s, key), placeholder))
  {
  }

  /**
   * The store a push leaves, the files it uploaded, and the pull of those
   * files into that store. `field2` is the gist-id field at restore time
   * (`None` when the page has none); a push that had the field writes the
   * returned id into it, so `Some(id)` is the usual value.
   */
  lemma PushThenPull(s: Store, field: Option<string>, id: string, field2: Option<string>, skipPlaceholders: bool)
    requires Pushable(s, field)
    requires Truthy(GistIdOf(Push(s, field, Ok(id)).store, field2))
    ensures var s1 := Push(s, field, Ok(id)).store;
            var files := Uploaded(PushRequest(s, field).value);
            var r := PullWith(s1, field2, Ok(files), skipPlaceholders);
            && r.error.None?
            && Read(s1, CurrentWeekKey) == Read(s, CurrentWeekKey)
            && Read(s1, HistoryKey) == Read(s, HistoryKey)
            && Read(s1, SettingsKey) == Read(s, SettingsKey)
            && CurrentWeekFile in files && HistoryFile in files && SettingsFile in files
            && files[CurrentWeekFile] == GistFile(Some(ContentOr(Read(s, CurrentWeekKey), ObjectPlaceholder)))
            && files[HistoryFile] == GistFile(Some(ContentOr(Read(s, HistoryKey), ListPlaceholder)))
            && files[SettingsFile] == GistFile(Some(ContentOr(Read(s, SettingsKey), ObjectPlaceholder)))
            && PulledInto(s1, r.store, files, GistIdOf(s1, field2).value, skipPlaceholders)
  {
    KeysDistinct();
    var s1 := Push(s, field, Ok(id)).store;
    assert Read(s1, TokenKey) == Read(s, TokenKey);
  }

  /**
   * As written: pulling back what a push just uploaded restores every stored
   * document, except that a current week or settings document that was not
   * stored comes back as the placeholder `{}`.
   */
  lemma PullAfterPushWritesPlaceholders(s: Store, field: Option<string>, id: string, field2: Option<string>)
    requires Pushable(s, field)
    requires Truthy(GistIdOf(Push(s, field, Ok(id)).store, field2))
    ensures var s1 := Push(s, field, Ok(id)).store;
            var r := Pull(s1, field2, Ok(Uploaded(PushRequest(s, field).value)));
            && r.error.None?
            && Read(r.store, CurrentWeekKey) == Some(ContentOr(Read(s, CurrentWeekKey), ObjectPlaceholder))
            && Read(r.store, HistoryKey) == Some(ContentOr(Read(s, HistoryKey), ListPlaceholder))
            && Read(r.store, SettingsKey) == Some(ContentOr(Read(s, SettingsKey), ObjectPlaceholder))
            && (CurrentWeekKey !in s ==> Read(r.store, CurrentWeekKey) == Some(ObjectPlaceholder))
  {
    PlaceholdersNotBlank();
    PushThenPull(s, field, id, field2, false);
    var s1 := Push(s, field, Ok(id)).store;
    var files := Uploaded(PushRequest(s, field).value);
    var r := PullWith(s1, field2, Ok(files), false);
    RoundTripDocument(s, s1, r.store, files, CurrentWeekFile, CurrentWeekKey, ObjectPlaceholder, false);
    RoundTripDocument(s, s1, r.store, files, HistoryFile, HistoryKey, ListPlaceholder, false);
    RoundTripDocument(s, s1, r.store, files, SettingsFile, SettingsKey, ObjectPlaceholder, false);
  }

  /**
   * Corrected: with placeholders passed over, pulling back what a push just
   * uploaded leaves the current week and the settings exactly as they were,
   * and the history as it was or, when none was stored, as the empty list.
   */
  lemma PullAfterPushRestoresDocuments(s: Store, field: Option<string>, id: string, field2: Option<string>)
    requires Pushable(s, field)
    requires Truthy(GistIdOf(Push(s, field, Ok(id)).store, field2))
    ensures var s1 := Push(s, field, Ok(id)).store;
            var r := PullSkippingPlaceholders(s1, field2, Ok(Uploaded(PushRequest(s, field).value)));
            && r.error.None?
            && Read(r.store, CurrentWeekKey) == Read(s, CurrentWeekKey)
            && Read(r.store, SettingsKey) == Read(s, SettingsKey)
            && Read(r.store, HistoryKey) == Some(ContentOr(Read(s, HistoryKey), ListPlaceholder))
  {
    PlaceholdersNotBlank();
    PushThenPull(s, field, id, field2, true);
    var s1 := Push(s, field, Ok(id)).store;
    var files := Uploaded(PushRequest(s, field).value);
    var r := PullWith(s1, field2, Ok(files), true);
    assert HistoryFile != CurrentWeekFile && HistoryFile != SettingsFile by {
      assert HistoryFile[0] == 'h' && CurrentWeekFile[0] == 'c' && SettingsFile[0] == 's';
    }
    RoundTripDocument(s, s1, r.store, files, CurrentWeekFile, CurrentWeekKey, ObjectPlaceholder, true);
    RoundTripDocument(s, s1, r.store, files, HistoryFile, HistoryKey, ListPlaceholder, true);
    RoundTripDocument(s, s1, r.store, files, SettingsFile, SettingsKey, ObjectPlaceholder, true);
  }
}
