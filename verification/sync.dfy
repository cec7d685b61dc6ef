/**
 * The client's synchronisation state and the transitions its handlers make:
 * the mount-time cache seeding, `fetchCharacters`, `handleSelect` and the two
 * halves of `handleSubmit` (its checks, and the requests that follow them). Each
 * transition is a function from the state before to the state after; the
 * `Engine.App` methods perform the same updates field by field.
 */
module Sync {
  import opened Wrappers
  import opened Text
  import opened Characters
  import opened Cache

  /** Which screen is shown. */
  datatype View = ListView | DetailView

  /** The three edit-form fields, as typed or after trimming. */
  datatype Draft = Draft(name: string, description: string, image: string)

  /** The JSON body of the PATCH request: the edited fields and the target's identifier. */
  datatype PatchBody = PatchBody(name: string, description: string, image: string, id: string)

  /** A request the client sends: the list GET, the image upload POST, or the PATCH. */
  datatype Request = GetList | UploadImage(endpoint: string, file: string, preset: string) | PatchCharacter(body: PatchBody)

  /** What the submit handler holds while its save is in flight: the trimmed payload and the target identifier. */
  datatype Pending = Pending(payload: Draft, targetId: string)

  /** How the list GET ended: an array payload, or any failure (thrown fetch, non-OK status, non-array body). */
  datatype FetchOutcome = Fetched(items: seq<Record>) | FetchFailed

  /**
   * The image-upload settings: the host a URL may already point at (the
   * constant `ImageHost`), and the upload endpoint and preset from the build
   * environment, either of which may be unset.
   */
  datatype UploadConfig = UploadConfig(host: string, endpoint: Option<string>, preset: Option<string>)

  /** How the upload POST ended: an OK reply with its `secure_url` field (if any), or a failure. */
  datatype UploadOutcome = UploadReply(secureUrl: Option<string>) | UploadFailed

  /** The decision of `ensureCloudinaryUrlIfConfigured` before any request is made. */
  datatype ImagePlan = NoImage | UseAsIs(url: string) | UploadFirst(file: string, endpoint: string, preset: string)

  /** Why a submit stops before it starts saving. */
  datatype SubmitError = MissingFields | NoSelection

  const ImageHost := "res.cloudinary.com"
  const CachedNotice := "Could not reach the API. Showing cached data."
  const NoDataNotice := "Could not connect to the dungeon and no cache is available."
  const FillFieldsNotice := "Please fill name, description, and image before continuing."
  const SelectNotice := "Select a character to update it."
  const UploadFailedNotice := "Could not upload the image to Cloudinary before PATCH."
  const SaveFailedNotice := "Could not save changes. Verify the endpoint allows PATCH or try again later."
  const UpdatedNotice := "Character updated successfully."

  /**
   * The component's state slots, the cache entry in browser storage, the
   * requests sent so far, and the submit handler whose save is in flight (if any).
   */
  datatype AppState = AppState(
    characters: seq<Record>,
    allCharacters: seq<Record>,
    selectedId: Option<string>,
    loading: bool,
    saving: bool,
    error: string,
    message: string,
    offline: bool,
    query: string,
    view: View,
    showEdit: bool,
    cache: Stored,
    outbox: seq<Request>,
    pending: Option<Pending>)

  /**
   * The two list slots are always set together, and `saving` is set exactly
   * while a submit's save is in flight.
   */
  predicate Consistent(s: AppState) {
    s.characters == s.allCharacters && (s.saving <==> s.pending.Some?)
  }

  /** The state when the component first renders, before any effect has run. */
  function Initial(stored: Stored, online: bool): AppState {
    AppState([], [], None, true, false, "", "", !online, "", ListView, false, stored, [], None)
  }

  /**
   * The mount effect's first half: a usable cache is shown at once, and the
   * selection, if still null, becomes the cached list's first identifier.
   */
  function SeedStep(s: AppState): (t: AppState)
    ensures t == s.(characters := t.characters, allCharacters := t.allCharacters, selectedId := t.selectedId)
    ensures LoadCache(s.cache).None? ==> t == s
    ensures LoadCache(s.cache).Some? ==>
              t.allCharacters == LoadCache(s.cache).value && t.characters == t.allCharacters && t.selectedId.Some?
    ensures s.selectedId.Some? ==> t.selectedId == s.selectedId
    ensures s.selectedId.None? ==> SelectionValid(t.allCharacters, t.selectedId)
    ensures LoadCache(s.cache).Some? && s.selectedId.None? ==> t.selectedId == FirstId(t.allCharacters)
    ensures Consistent(s) ==> Consistent(t)
  {
    match LoadCache(s.cache)
    case None => s
    case Some(cached) =>
      s.(allCharacters := cached, characters := cached, selectedId := SeedSelection(cached, s.selectedId))
  }

  /**
   * `fetchCharacters`. A successful fetch replaces both lists, writes the cache
   * and reconciles the selection, leaving `offline` alone. A failure falls back to
   * a usable cache (both lists, `offline` set, selection reconciled, cache not
   * written) or, without one, empties both lists and keeps the selection and
   * `offline` as they were. Either way an error notice is set on failure, one GET
   * is sent, and nothing outside these slots changes.
   */
  function FetchStep(s: AppState, o: FetchOutcome): (t: AppState)
    ensures t == s.(characters := t.characters, allCharacters := t.allCharacters, selectedId := t.selectedId,
                    loading := false, error := t.error, offline := t.offline, cache := t.cache,
                    outbox := s.outbox + [GetList])
    ensures t.characters == t.allCharacters
    ensures Consistent(s) ==> Consistent(t)
    ensures o.Fetched? ==>
              && t.allCharacters == o.items
              && LoadCache(t.cache) == (if |o.items| > 0 then Some(o.items) else None)
              && t.error == "" && t.offline == s.offline
              && SelectionValid(t.allCharacters, t.selectedId)
              && (t.selectedId.None? <==> o.items == [])
              && (Holds(o.items, s.selectedId) ==> t.selectedId == s.selectedId)
              && (|o.items| > 0 && !Holds(o.items, s.selectedId) ==> t.selectedId == FirstId(o.items))
    ensures o.FetchFailed? ==> t.cache == s.cache && t.error != ""
    ensures o.FetchFailed? && LoadCache(s.cache).Some? ==>
              && t.allCharacters == LoadCache(s.cache).value
              && t.offline && t.error == CachedNotice
              && SelectionValid(t.allCharacters, t.selectedId) && t.selectedId.Some?
              && (Holds(t.allCharacters, s.selectedId) ==> t.selectedId == s.selectedId)
              && (!Holds(t.allCharacters, s.selectedId) ==> t.selectedId == FirstId(t.allCharacters))
    ensures o.FetchFailed? && LoadCache(s.cache).None? ==>
              && t.allCharacters == [] && t.error == NoDataNotice
              && t.offline == s.offline && t.selectedId == s.selectedId
              && FindById(t.characters, t.selectedId).None?
  {
    FetchResult(s.(loading := true, error := "", outbox := s.outbox + [GetList]), o).(loading := false)
  }

  /**
   * The body of `fetchCharacters`' `try`/`catch`, from the state after the GET
   * was sent: the new list, cache entry, selection, flag and notice.
   */
  function FetchResult(s: AppState, o: FetchOutcome): (t: AppState)
    ensures t == s.(characters := t.characters, allCharacters := t.allCharacters, selectedId := t.selectedId,
                    error := t.error, offline := t.offline, cache := t.cache)
  {
    match o
    case Fetched(data) =>
      s.(allCharacters := data, characters := data, cache := SaveCache(data),
         selectedId := ReconcileFetched(data, s.selectedId))
    case FetchFailed =>
      match LoadCache(s.cache)
      case Some(cached) =>
        s.(allCharacters := cached, characters := cached, offline := true, error := CachedNotice,
           selectedId := ReconcileCached(cached, s.selectedId))
      case None =>
        s.(allCharacters := [], characters := [], error := NoDataNotice)
  }

  /**
   * A fetch reads only the selection, the cache entry and the `offline` flag of
   * the state it starts from: two such states lead to the same lists, selection,
   * cache, flag and error notice.
   */
  lemma FetchReadsLittle(s: AppState, s': AppState, o: FetchOutcome)
    requires s.selectedId == s'.selectedId && s.cache == s'.cache && s.offline == s'.offline
    ensures var t, t' := FetchStep(s, o), FetchStep(s', o);
            && t.characters == t'.characters && t.allCharacters == t'.allCharacters
            && t.selectedId == t'.selectedId && t.cache == t'.cache
            && t.offline == t'.offline && t.error == t'.error
  {
  }

  /**
   * A fetch neither reads nor writes the submit handler's slots, the success
   * notice or the edit flag, and it overwrites the error notice: starting from
   * a state that differs only there (and in the request log), it ends in the
   * same state apart from those slots.
   */
  lemma FetchIgnoresSubmitSlots(s: AppState, s': AppState, o: FetchOutcome)
    requires s' == s.(saving := s'.saving, message := s'.message, error := s'.error, pending := s'.pending,
                      showEdit := s'.showEdit, outbox := s'.outbox)
    ensures FetchStep(s', o) == FetchStep(s, o).(saving := s'.saving, message := s'.message, pending := s'.pending,
                                                 showEdit := s'.showEdit, outbox := s'.outbox + [GetList])
  {
  }

  /**
   * `handleSelect(id)`: the given identifier becomes the selection, the notices
   * are cleared and the detail view opens; the selected record is then found
   * exactly when a record with that identifier is listed. No request is sent.
   */
  function SelectStep(s: AppState, id: string): (t: AppState)
    ensures t.selectedId == Some(id) && t.message == "" && t.error == ""
    ensures t.view == DetailView && !t.showEdit
    ensures t == s.(selectedId := t.selectedId, message := t.message, error := t.error, view := t.view, showEdit := t.showEdit)
    ensures FindById(t.characters, t.selectedId).Some? <==> HasId(s.characters, id)
    ensures Consistent(s) ==> Consistent(t)
  {
    s.(selectedId := Some(id), message := "", error := "", showEdit := false, view := DetailView)
  }

  /**
   * `handleBack`: the list view opens, the edit form closes and the notices are
   * cleared; the selection stays, so going back and selecting the same record
   * again finds it as before.
   */
  function BackStep(s: AppState): (t: AppState)
    ensures t.view == ListView && !t.showEdit && t.message == "" && t.error == ""
    ensures t == s.(view := t.view, showEdit := t.showEdit, message := t.message, error := t.error)
    ensures Consistent(s) ==> Consistent(t)
  {
    s.(view := ListView, showEdit := false, message := "", error := "")
  }

  /** Selecting, going back and selecting the same identifier again is one selection. */
  lemma SelectBackSelect(s: AppState, id: string)
    ensures SelectStep(BackStep(SelectStep(s, id)), id) == SelectStep(s, id)
  {
  }

  /**
   * The synchronous checks of `handleSubmit`: each trimmed field must be
   * non-empty (checked first), then a record must be selected whose identifier
   * is non-empty. On success the payload is the trimmed form and the target is
   * the selected record's identifier.
   */
  function PlanSubmit(form: Draft, selected: Option<Record>): (r: Result<Pending, SubmitError>)
    ensures r == Err(MissingFields) <==> Trim(form.name) == [] || Trim(form.description) == [] || Trim(form.image) == []
    ensures r.Ok? <==> && Trim(form.name) != [] && Trim(form.description) != [] && Trim(form.image) != []
                       && selected.Some? && selected.value.id != []
    ensures r.Ok? ==> r.value.payload == Draft(Trim(form.name), Trim(form.description), Trim(form.image))
                      && r.value.targetId == selected.value.id
  {
    var payload := Draft(Trim(form.name), Trim(form.description), Trim(form.image));
    if payload.name == [] || payload.description == [] || payload.image == [] then Err(MissingFields)
    else if selected.None? || selected.value.id == [] then Err(NoSelection)
    else Ok(Pending(payload, selected.value.id))
  }

  /** `url.includes('res.cloudinary.com')`: the URL already points at the image host. */
  predicate OnImageHost(url: string, cfg: UploadConfig) {
    Contains(url, cfg.host)
  }

  /** Both upload settings are present and non-empty. */
  predicate Configured(cfg: UploadConfig) {
    cfg.endpoint.Some? && cfg.endpoint.value != [] && cfg.preset.Some? && cfg.preset.value != []
  }

  /**
   * The decision part of `ensureCloudinaryUrlIfConfigured`: an empty trimmed URL
   * is refused; a URL already on the image host, or any URL when uploading is
   * not configured, is used as it is; otherwise it must be uploaded first.
   */
  function PlanImage(image: string, cfg: UploadConfig): (r: ImagePlan)
    ensures r.NoImage? <==> Trim(image) == []
    ensures r.UseAsIs? <==> Trim(image) != [] && (OnImageHost(Trim(image), cfg) || !Configured(cfg))
    ensures r.UseAsIs? ==> r.url == Trim(image)
    ensures r.UploadFirst? ==> r.file == Trim(image) && r.file != [] && Configured(cfg)
                               && r.endpoint == cfg.endpoint.value && r.preset == cfg.preset.value
  {
    var url := Trim(image);
    if url == [] then NoImage
    else if OnImageHost(url, cfg) then UseAsIs(url)
    else if !Configured(cfg) then UseAsIs(url)
    else UploadFirst(url, cfg.endpoint.value, cfg.preset.value)
  }

  /**
   * The image URL the PATCH will carry, or null when preparation failed: an
   * upload succeeds only with an OK reply holding a non-empty `secure_url`.
   */
  function PreparedImage(plan: ImagePlan, up: UploadOutcome): (r: Option<string>)
    ensures plan.NoImage? ==> r.None?
    ensures plan.UseAsIs? ==> r == Some(plan.url)
    ensures plan.UploadFirst? ==> (r.Some? <==> up.UploadReply? && up.secureUrl.Some? && up.secureUrl.value != [])
    ensures r.Some? && plan.UploadFirst? ==> r == up.secureUrl
  {
    match plan
    case NoImage => None
    case UseAsIs(url) => Some(url)
    case UploadFirst(_, _, _) =>
      if up.UploadReply? && up.secureUrl.Some? && up.secureUrl.value != [] then up.secureUrl else None
  }

  /**
   * `handleSubmit` up to and including its checks, before any request is sent. While a submit is in flight it
   * does nothing. A failed check only sets its error notice. A passing check sets
   * `saving`, clears both notices and records the payload. No request is sent here.
   */
  function SubmitStartStep(s: AppState, form: Draft): (t: AppState)
    ensures s.saving ==> t == s
    ensures t.outbox == s.outbox
    ensures t == s.(saving := t.saving, pending := t.pending, message := t.message, error := t.error)
    ensures Consistent(s) ==> Consistent(t)
    ensures !s.saving && PlanSubmit(form, FindById(s.characters, s.selectedId)) == Err(MissingFields) ==>
              t == s.(error := FillFieldsNotice)
    ensures !s.saving && PlanSubmit(form, FindById(s.characters, s.selectedId)) == Err(NoSelection) ==>
              t == s.(error := SelectNotice)
    ensures (!s.saving && t.saving) <==> PlanSubmit(form, FindById(s.characters, s.selectedId)).Ok? && !s.saving
    ensures !s.saving && t.saving ==>
              && t.pending.Some? && t.message == "" && t.error == ""
              && t.pending.value.payload == Draft(Trim(form.name), Trim(form.description), Trim(form.image))
              && s.selectedId == Some(t.pending.value.targetId) && HasId(s.characters, t.pending.value.targetId)
  {
    if s.saving then s
    else
      match PlanSubmit(form, FindById(s.characters, s.selectedId))
      case Err(MissingFields) => s.(error := FillFieldsNotice)
      case Err(NoSelection) => s.(error := SelectNotice)
      case Ok(p) => s.(saving := true, message := "", error := "", pending := Some(p))
  }

  /** The upload request the image plan calls for, if any. */
  function UploadRequests(plan: ImagePlan): seq<Request> {
    if plan.UploadFirst? then [UploadImage(plan.endpoint, plan.file, plan.preset)] else []
  }

  /** The PATCH, when an image was prepared, and the refetch after an accepted one. */
  function PatchRequests(p: Pending, img: Option<string>, patchOk: bool): seq<Request> {
    if img.None? then []
    else [PatchCharacter(PatchBody(p.payload.name, p.payload.description, img.value, p.targetId))]
         + (if patchOk then [GetList] else [])
  }

  /** The requests the second half of a submit sends, in order. */
  function FinishRequests(p: Pending, plan: ImagePlan, img: Option<string>, patchOk: bool): seq<Request> {
    UploadRequests(plan) + PatchRequests(p, img, patchOk)
  }

  /** Image preparation's effect on the state: the upload request, and its notice when it fails. */
  function PrepareStep(s: AppState, plan: ImagePlan, img: Option<string>): (t: AppState)
    ensures t == s.(outbox := s.outbox + UploadRequests(plan),
                    error := if plan.UploadFirst? && img.None? then UploadFailedNotice else s.error)
  {
    var s1 := if plan.UploadFirst? then s.(outbox := s.outbox + [UploadImage(plan.endpoint, plan.file, plan.preset)]) else s;
    if plan.UploadFirst? && img.None? then s1.(error := UploadFailedNotice) else s1
  }

  /**
   * The PATCH and what follows it: a rejected PATCH only sets the error notice;
   * an accepted one is followed by a full refetch and the success notice.
   */
  function PatchStep(s: AppState, body: PatchBody, patchOk: bool, refetch: FetchOutcome): (t: AppState)
    ensures t.outbox == s.outbox + [PatchCharacter(body)] + (if patchOk then [GetList] else [])
    ensures !patchOk ==> t == s.(error := SaveFailedNotice, outbox := t.outbox)
    ensures patchOk ==> t == FetchStep(s, refetch).(message := UpdatedNotice, showEdit := false, outbox := t.outbox)
    ensures Consistent(s) ==> Consistent(t)
  {
    var s1 := s.(outbox := s.outbox + [PatchCharacter(body)]);
    if !patchOk then s1.(error := SaveFailedNotice)
    else FetchStep(s1, refetch).(message := UpdatedNotice, showEdit := false)
  }

  /**
   * `handleSubmit` after its checks, from its first request on, for the recorded payload. The
   * image is prepared first; if that yields nothing the submit aborts before
   * any PATCH and changes nothing but the error notice (the upload's own notice
   * is overwritten by the generic one). Otherwise the PATCH is sent; only an OK
   * reply is followed by a full refetch and the success notice. `saving` ends
   * false in every case.
   */
  function SubmitFinishStep(s: AppState, cfg: UploadConfig, up: UploadOutcome, patchOk: bool, refetch: FetchOutcome): (t: AppState)
    requires s.pending.Some?
    ensures !t.saving && t.pending.None?
    ensures Consistent(s) ==> Consistent(t)
    ensures var img := PreparedImage(PlanImage(s.pending.value.payload.image, cfg), up);
            img.None? || !patchOk ==>
              t == s.(error := SaveFailedNotice, saving := false, pending := None, outbox := t.outbox)
    ensures var img := PreparedImage(PlanImage(s.pending.value.payload.image, cfg), up);
            img.Some? && patchOk ==>
              t == FetchStep(s, refetch).(message := UpdatedNotice, showEdit := false, saving := false,
                                          pending := None, outbox := t.outbox)
  {
    var p := s.pending.value;
    var plan := PlanImage(p.payload.image, cfg);
    var img := PreparedImage(plan, up);
    var s2 := PrepareStep(s, plan, img);
    var s3 := PatchIfPrepared(s2, p, img, patchOk, refetch);
    if img.Some? then
      var body := PatchBody(p.payload.name, p.payload.description, img.value, p.targetId);
      FetchIgnoresSubmitSlots(s, s2.(outbox := s2.outbox + [PatchCharacter(body)]), refetch);
      s3.(saving := false, pending := None)
    else
      s3.(saving := false, pending := None)
  }

  /** The submit after image preparation: abort without an image, else the PATCH and what follows it. */
  function PatchIfPrepared(s: AppState, p: Pending, img: Option<string>, patchOk: bool, refetch: FetchOutcome): (t: AppState)
    ensures t.outbox == s.outbox + PatchRequests(p, img, patchOk)
    ensures img.None? ==> t == s.(error := SaveFailedNotice)
    ensures img.Some? ==> t == PatchStep(s, PatchBody(p.payload.name, p.payload.description, img.value, p.targetId), patchOk, refetch)
  {
    if img.None? then s.(error := SaveFailedNotice)
    else PatchStep(s, PatchBody(p.payload.name, p.payload.description, img.value, p.targetId), patchOk, refetch)
  }

  /** The second half of a submit appends exactly its requests to the log, in order. */
  lemma SubmitFinishSends(s: AppState, cfg: UploadConfig, up: UploadOutcome, patchOk: bool, refetch: FetchOutcome)
    requires s.pending.Some?
    ensures var plan := PlanImage(s.pending.value.payload.image, cfg);
            SubmitFinishStep(s, cfg, up, patchOk, refetch).outbox
              == s.outbox + FinishRequests(s.pending.value, plan, PreparedImage(plan, up), patchOk)
  {
    var p := s.pending.value;
    var plan := PlanImage(p.payload.image, cfg);
    var img := PreparedImage(plan, up);
    var s2 := PrepareStep(s, plan, img);
    assert SubmitFinishStep(s, cfg, up, patchOk, refetch).outbox == s2.outbox + PatchRequests(p, img, patchOk);
    assert s.outbox + UploadRequests(plan) + PatchRequests(p, img, patchOk)
        == s.outbox + FinishRequests(p, plan, img, patchOk);
  }

  /**
   * What the second half of a submit sends: an upload only when uploading is
   * configured and the URL is not on the image host; a PATCH only with a prepared,
   * non-empty image, carrying the payload's name and description and the target
   * identifier, and the URL unchanged when no upload was due; a refetch only
   * after an accepted PATCH, as the last request.
   */
  lemma {:induction false} FinishRequestsShape(p: Pending, cfg: UploadConfig, up: UploadOutcome, patchOk: bool)
    ensures var plan := PlanImage(p.payload.image, cfg);
            var img := PreparedImage(plan, up);
            var sent := FinishRequests(p, plan, img, patchOk);
            && (forall q :: q in sent && q.UploadImage? ==> Configured(cfg) && !OnImageHost(Trim(p.payload.image), cfg))
            && (forall b :: PatchCharacter(b) in sent ==>
                  && b == PatchBody(p.payload.name, p.payload.description, b.image, p.targetId) && b.image != []
                  && (OnImageHost(Trim(p.payload.image), cfg) || !Configured(cfg) ==> b.image == Trim(p.payload.image)))
            && (img.None? ==> forall q :: q in sent ==> !q.PatchCharacter?)
            && (GetList in sent <==> img.Some? && patchOk)
            && (GetList in sent ==> |sent| >= 2 && sent[|sent| - 1] == GetList && sent[|sent| - 2].PatchCharacter?)
  {
    var plan := PlanImage(p.payload.image, cfg);
    var img := PreparedImage(plan, up);
    var ups := UploadRequests(plan);
    var rest := PatchRequests(p, img, patchOk);
    assert forall q :: q in ups ==> q.UploadImage?;
    assert forall q :: q in rest ==> !q.UploadImage?;
  }

  /**
   * `handleSubmit` as a whole: the checks, then (if they pass) the image
   * preparation, the PATCH and the refetch. While a submit is in flight it does
   * nothing; a failed check only sets its error notice; `saving` is false when
   * a started submit finishes.
   */
  function SubmitStep(s: AppState, form: Draft, cfg: UploadConfig, up: UploadOutcome, patchOk: bool, refetch: FetchOutcome): (t: AppState)
    ensures s.saving ==> t == s
    ensures !s.saving && PlanSubmit(form, FindById(s.characters, s.selectedId)).Err? ==>
              t == s.(error := t.error) && t.error != ""
    ensures Consistent(s) ==> Consistent(t)
    ensures Consistent(s) && !s.saving ==> !t.saving && t.pending.None?
    ensures !s.saving && PlanSubmit(form, FindById(s.characters, s.selectedId)).Ok? ==>
              var img := PreparedImage(PlanImage(Trim(form.image), cfg), up);
              && (img.Some? && patchOk ==>
                    t == FetchStep(s, refetch).(message := UpdatedNotice, showEdit := false, saving := false,
                                                pending := None, outbox := t.outbox))
              && (img.None? || !patchOk ==>
                    t == s.(error := SaveFailedNotice, message := "", saving := false, pending := None, outbox := t.outbox))
  {
    var t1 := SubmitStartStep(s, form);
    if !s.saving && t1.saving then
      FetchIgnoresSubmitSlots(s, t1, refetch);
      SubmitFinishStep(t1, cfg, up, patchOk, refetch)
    else
      t1
  }

  /**
   * The requests a submit sends: none while one is in flight or when a check
   * fails; otherwise any PATCH carries the trimmed, non-empty name and
   * description, a non-empty image, and the identifier of the selected, listed
   * record, and the image is the trimmed form URL unchanged when it is already
   * on the image host or uploading is not configured. A refetch is sent only
   * after an accepted PATCH, as the last request.
   */
  lemma SubmitRequests(s: AppState, form: Draft, cfg: UploadConfig, up: UploadOutcome, patchOk: bool, refetch: FetchOutcome)
    ensures var t := SubmitStep(s, form, cfg, up, patchOk, refetch);
            s.outbox <= t.outbox &&
            var sent := t.outbox[|s.outbox|..];
            && (s.saving || PlanSubmit(form, FindById(s.characters, s.selectedId)).Err? ==> sent == [])
            && (forall b :: PatchCharacter(b) in sent ==>
                  && b.name == Trim(form.name) && b.name != []
                  && b.description == Trim(form.description) && b.description != []
                  && b.image != []
                  && s.selectedId == Some(b.id) && HasId(s.characters, b.id)
                  && (OnImageHost(Trim(form.image), cfg) || !Configured(cfg) ==> b.image == Trim(form.image)))
            && (GetList in sent ==> patchOk && |sent| >= 2 && sent[|sent| - 1] == GetList && sent[|sent| - 2].PatchCharacter?)
  {
    var t := SubmitStep(s, form, cfg, up, patchOk, refetch);
    var sent := SubmitSent(s, form, cfg, up, patchOk);
    SubmitSends(s, form, cfg, up, patchOk, refetch);
    assert t.outbox[|s.outbox|..] == sent;
    SentRequests(s, form, cfg, up, patchOk);
  }

  /** The requests a submit sends, whatever its refetch brings back. */
  function SubmitSent(s: AppState, form: Draft, cfg: UploadConfig, up: UploadOutcome, patchOk: bool): seq<Request> {
    var t1 := SubmitStartStep(s, form);
    if !s.saving && t1.saving then
      var plan := PlanImage(t1.pending.value.payload.image, cfg);
      FinishRequests(t1.pending.value, plan, PreparedImage(plan, up), patchOk)
    else
      []
  }

  /** `SubmitRequests` stated for the sent requests alone. */
  lemma SentRequests(s: AppState, form: Draft, cfg: UploadConfig, up: UploadOutcome, patchOk: bool)
    ensures var sent := SubmitSent(s, form, cfg, up, patchOk);
            && (s.saving || PlanSubmit(form, FindById(s.characters, s.selectedId)).Err? ==> sent == [])
            && (forall b :: PatchCharacter(b) in sent ==>
                  && b.name == Trim(form.name) && b.name != []
                  && b.description == Trim(form.description) && b.description != []
                  && b.image != []
                  && s.selectedId == Some(b.id) && HasId(s.characters, b.id)
                  && (OnImageHost(Trim(form.image), cfg) || !Configured(cfg) ==> b.image == Trim(form.image)))
            && (GetList in sent ==> patchOk && |sent| >= 2 && sent[|sent| - 1] == GetList && sent[|sent| - 2].PatchCharacter?)
  {
    var t1 := SubmitStartStep(s, form);
    if !s.saving && t1.saving {
      SentForForm(s, form, t1.pending.value, cfg, up, patchOk);
    }
  }

  /**
   * A submit appends to the log exactly the requests of its second half when
   * its checks pass, and nothing otherwise.
   */
  lemma SubmitSends(s: AppState, form: Draft, cfg: UploadConfig, up: UploadOutcome, patchOk: bool, refetch: FetchOutcome)
    ensures SubmitStep(s, form, cfg, up, patchOk, refetch).outbox == s.outbox + SubmitSent(s, form, cfg, up, patchOk)
  {
    var t1 := SubmitStartStep(s, form);
    if !s.saving && t1.saving {
      SubmitFinishSends(t1, cfg, up, patchOk, refetch);
    }
  }

  /** `SubmitRequests` for a submit that passed its checks, stated for the requests alone. */
  lemma SentForForm(s: AppState, form: Draft, p: Pending, cfg: UploadConfig, up: UploadOutcome, patchOk: bool)
    requires p.payload == Draft(Trim(form.name), Trim(form.description), Trim(form.image))
    requires p.payload.name != [] && p.payload.description != []
    requires s.selectedId == Some(p.targetId) && HasId(s.characters, p.targetId)
    ensures var plan := PlanImage(p.payload.image, cfg);
            var sent := FinishRequests(p, plan, PreparedImage(plan, up), patchOk);
            && (forall b :: PatchCharacter(b) in sent ==>
                  && b.name == Trim(form.name) && b.name != []
                  && b.description == Trim(form.description) && b.description != []
                  && b.image != []
                  && s.selectedId == Some(b.id) && HasId(s.characters, b.id)
                  && (OnImageHost(Trim(form.image), cfg) || !Configured(cfg) ==> b.image == Trim(form.image)))
            && (GetList in sent ==> patchOk && |sent| >= 2 && sent[|sent| - 1] == GetList && sent[|sent| - 2].PatchCharacter?)
  {
    var plan := PlanImage(p.payload.image, cfg);
    var sent := FinishRequests(p, plan, PreparedImage(plan, up), patchOk);
    FinishRequestsShape(p, cfg, up, patchOk);
    var passThrough := OnImageHost(Trim(form.image), cfg) || !Configured(cfg);
    assert passThrough == (OnImageHost(Trim(p.payload.image), cfg) || !Configured(cfg)) by {
      TrimIdempotent(form.image);
    }
    forall b | PatchCharacter(b) in sent
      ensures passThrough ==> b.image == Trim(form.image)
    {
    }
  }

  /** Refreshing twice with the same upstream list leaves the state as after the first refresh, apart from the extra GET. */
  lemma RefreshTwice(s: AppState, items: seq<Record>)
    ensures var once := FetchStep(s, Fetched(items));
            FetchStep(once, Fetched(items)) == once.(outbox := once.outbox + [GetList])
  {
    ReconcileStable(items, s.selectedId);
  }

  /**
   * After a successful fetch of a non-empty list, a failing fetch falls back to
   * that list, offline, keeping the selection. After a successful fetch of the
   * empty list, the cache no longer offers a fallback.
   */
  lemma FailureAfterSuccess(s: AppState, items: seq<Record>)
    ensures var once := FetchStep(s, Fetched(items));
            var t := FetchStep(once, FetchFailed);
            && (|items| > 0 ==> t.allCharacters == items && t.offline && t.selectedId == once.selectedId)
            && (|items| == 0 ==> t.allCharacters == [] && t.error == NoDataNotice)
  {
    var once := FetchStep(s, Fetched(items));
    if |items| > 0 {
      assert Holds(items, once.selectedId);
    }
  }

  /**
   * Mounting with the cache holding record "a" named "Old" while the API
   * returns "a" renamed "New" and a record "b": the cached record is shown and
   * selected at once, and after the fetch the fresh list is shown with "a" still
   * selected and cached.
   */
  lemma MountExample()
    ensures var oldA := Record("a", Some("Old"), None, None);
            var newA := Record("a", Some("New"), None, None);
            var b := Record("b", Some("X"), None, None);
            var seeded := SeedStep(Initial(SaveCache([oldA]), true));
            var done := FetchStep(seeded, Fetched([newA, b]));
            && seeded.characters == [oldA] && seeded.selectedId == Some("a") && seeded.loading
            && done.characters == [newA, b] && done.selectedId == Some("a") && !done.loading
            && LoadCache(done.cache) == Some([newA, b])
  {
    var newA := Record("a", Some("New"), None, None);
    var b := Record("b", Some("X"), None, None);
    assert [newA, b][0].id == "a";
  }

  /**
   * With uploading not configured, a submit that passes its checks sends the
   * PATCH first, carrying the trimmed form values, the form's image URL
   * unchanged, and the selected identifier.
   */
  lemma UnconfiguredPatchesFirst(s: AppState, form: Draft, cfg: UploadConfig, up: UploadOutcome, patchOk: bool, refetch: FetchOutcome)
    requires !s.saving && !Configured(cfg)
    requires PlanSubmit(form, FindById(s.characters, s.selectedId)).Ok?
    ensures var t := SubmitStep(s, form, cfg, up, patchOk, refetch);
            && |t.outbox| > |s.outbox|
            && t.outbox[|s.outbox|] == PatchCharacter(PatchBody(Trim(form.name), Trim(form.description), Trim(form.image), s.selectedId.value))
  {
    var t1 := SubmitStartStep(s, form);
    var p := t1.pending.value;
    var plan := PlanImage(p.payload.image, cfg);
    assert plan == UseAsIs(p.payload.image) by {
      TrimIdempotent(form.image);
    }
    SubmitFinishSends(t1, cfg, up, patchOk, refetch);
    var sent := FinishRequests(p, plan, PreparedImage(plan, up), patchOk);
    assert sent[0] == PatchCharacter(PatchBody(p.payload.name, p.payload.description, p.payload.image, p.targetId));
  }
}
