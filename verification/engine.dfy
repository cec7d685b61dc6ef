/**
 * The component as an object: its state slots are fields that the handlers
 * update one assignment at a time, in the order the handlers make them. Each
 * method is proved to leave the object in the state the matching `Sync` step
 * function computes from the state before.
 */
module Engine {
  import opened Wrappers
  import opened Text
  import opened Characters
  import opened Cache
  import opened Sync

  class App {
    var characters: seq<Record>
    var allCharacters: seq<Record>
    var selectedId: Option<string>
    var loading: bool
    var saving: bool
    var error: string
    var message: string
    var offline: bool
    var query: string
    var view: View
    var showEdit: bool
    /** The browser-storage entry under `characters-cache`. */
    var cache: Stored
    /** Every request sent so far, oldest first. */
    var outbox: seq<Request>
    /** The payload of the submit handler while its save is in flight. */
    var pending: Option<Pending>
    /** The image host and the upload settings from the build environment. */
    const upload: UploadConfig

    /** The object's fields as an `AppState` value. */
    function State(): AppState
      reads this
    {
      AppState(characters, allCharacters, selectedId, loading, saving, error, message,
               offline, query, view, showEdit, cache, outbox, pending)
    }

    ghost predicate Valid()
      reads this
    {
      Consistent(State())
    }

    /** The first render: loading, nothing listed, nothing selected, `offline` from the browser. */
    constructor(stored: Stored, online: bool, endpoint: Option<string>, preset: Option<string>)
      ensures Valid()
      ensures State() == Initial(stored, online)
      ensures upload == UploadConfig(ImageHost, endpoint, preset)
    {
      characters := [];
      allCharacters := [];
      selectedId := None;
      loading := true;
      saving := false;
      error := "";
      message := "";
      offline := !online;
      query := "";
      view := ListView;
      showEdit := false;
      cache := stored;
      outbox := [];
      pending := None;
      upload := UploadConfig(ImageHost, endpoint, preset);
    }

    /** `selectedCharacter`: the listed record whose identifier is selected, if any. */
    function SelectedCharacter(): (r: Option<Record>)
      reads this
      ensures r.Some? <==> Holds(characters, selectedId)
      ensures r.Some? ==> r.value in characters && selectedId == Some(r.value.id)
    {
      FindById(characters, selectedId)
    }

    /** `visibleCharacters`: the full list filtered by the current query. */
    function Visible(): (r: seq<Record>)
      reads this
      ensures IsSubsequence(r, allCharacters)
      ensures Trim(query) == [] ==> r == allCharacters
      ensures Trim(query) != [] ==> forall x :: x in r <==> x in allCharacters && Matches(x, ToLower(Trim(query)))
      ensures Trim(query) != [] ==> forall x :: Matches(x, ToLower(Trim(query))) ==> multiset(r)[x] == multiset(allCharacters)[x]
    {
      VisibleCharacters(allCharacters, query)
    }

    /** The mount effect's cache seeding. */
    method SeedFromCache()
      requires Valid()
      modifies this
      ensures Valid()
      ensures State() == SeedStep(old(State()))
    {
      var cached := LoadCache(cache);
      if cached.Some? {
        allCharacters := cached.value;
        characters := cached.value;
        selectedId := SeedSelection(cached.value, selectedId);
      }
    }

    /** `fetchCharacters`, with the outcome of the GET as a parameter. */
    method Fetch(o: FetchOutcome)
      requires Valid()
      modifies this
      ensures Valid()
      ensures State() == FetchStep(old(State()), o)
    {
      loading := true;
      error := "";
      outbox := outbox + [GetList];
      ApplyFetchOutcome(o);
      loading := false;
    }

    /** The `try`/`catch` of `fetchCharacters`, once the GET has been sent. */
    method ApplyFetchOutcome(o: FetchOutcome)
      modifies this
      ensures State() == FetchResult(old(State()), o)
    {
      match o {
        case Fetched(data) =>
          allCharacters := data;
          characters := data;
          cache := SaveCache(data);
          selectedId := ReconcileFetched(data, selectedId);
        case FetchFailed =>
          var cached := LoadCache(cache);
          if cached.Some? {
            allCharacters := cached.value;
            characters := cached.value;
            offline := true;
            error := CachedNotice;
            selectedId := ReconcileCached(cached.value, selectedId);
          } else {
            allCharacters := [];
            characters := [];
            error := NoDataNotice;
          }
      }
    }

    /** The mount effect: seed from the cache, then fetch. */
    method Mount(o: FetchOutcome)
      requires Valid()
      modifies this
      ensures Valid()
      ensures State() == FetchStep(SeedStep(old(State())), o)
    {
      SeedFromCache();
      Fetch(o);
    }

    /** `handleSelect(id)`. */
    method Select(id: string)
      requires Valid()
      modifies this
      ensures Valid()
      ensures State() == SelectStep(old(State()), id)
    {
      selectedId := Some(id);
      message := "";
      error := "";
      showEdit := false;
      view := DetailView;
    }

    /** `handleBack`. */
    method Back()
      requires Valid()
      modifies this
      ensures Valid()
      ensures State() == BackStep(old(State()))
    {
      view := ListView;
      showEdit := false;
      message := "";
      error := "";
    }

    /** The search box's change handler. */
    method SetQuery(q: string)
      requires Valid()
      modifies this
      ensures Valid()
      ensures State() == old(State()).(query := q)
    {
      query := q;
    }

    /**
     * `handleSubmit` up to and including its checks, before any request is
     * sent; `started` tells whether the checks passed and the save is now in
     * flight.
     */
    method SubmitStart(form: Draft) returns (started: bool)
      requires Valid()
      modifies this
      ensures Valid()
      ensures State() == SubmitStartStep(old(State()), form)
      ensures started <==> !old(saving) && saving
    {
      if saving {
        return false;
      }
      ghost var plan := PlanSubmit(form, FindById(characters, selectedId));
      var payload := Draft(Trim(form.name), Trim(form.description), Trim(form.image));
      if payload.name == [] || payload.description == [] || payload.image == [] {
        assert plan == Err(MissingFields);
        error := FillFieldsNotice;
        return false;
      }
      var selected := FindById(characters, selectedId);
      if selected.None? || selected.value.id == [] {
        assert plan == Err(NoSelection);
        error := SelectNotice;
        return false;
      }
      assert plan == Ok(Pending(payload, selected.value.id));
      saving := true;
      message := "";
      error := "";
      pending := Some(Pending(payload, selected.value.id));
      started := true;
    }

    /**
     * `ensureCloudinaryUrlIfConfigured` for the in-flight payload's image, with
     * the outcome of the upload as a parameter.
     */
    method PrepareImage(up: UploadOutcome) returns (img: Option<string>)
      requires pending.Some?
      modifies this
      ensures var plan := PlanImage(old(pending).value.payload.image, upload);
              img == PreparedImage(plan, up) && State() == PrepareStep(old(State()), plan, img)
    {
      var url := Trim(pending.value.payload.image);
      if url == [] {
        return None;
      }
      if OnImageHost(url, upload) {
        return Some(url);
      }
      if !Configured(upload) {
        return Some(url);
      }
      outbox := outbox + [UploadImage(upload.endpoint.value, url, upload.preset.value)];
      if up.UploadReply? && up.secureUrl.Some? && up.secureUrl.value != [] {
        img := up.secureUrl;
      } else {
        error := UploadFailedNotice;
        img := None;
      }
    }

    /**
     * `handleSubmit` after its checks, from its first request on, with the outcomes of the
     * upload, the PATCH and the refetch as parameters.
     */
    method SubmitFinish(up: UploadOutcome, patchOk: bool, refetch: FetchOutcome)
      requires Valid() && pending.Some?
      modifies this
      ensures Valid()
      ensures State() == SubmitFinishStep(old(State()), upload, up, patchOk, refetch)
    {
      var p := pending.value;
      var img := PrepareImage(up);
      if img.None? {
        error := SaveFailedNotice;
      } else {
        Patch(PatchBody(p.payload.name, p.payload.description, img.value, p.targetId), patchOk, refetch);
      }
      saving := false;
      pending := None;
    }

    /**
     * The PATCH of `handleSubmit` and what follows it, with the acceptance of
     * the PATCH and the outcome of the refetch as parameters.
     */
    method Patch(body: PatchBody, patchOk: bool, refetch: FetchOutcome)
      requires Valid()
      modifies this
      ensures Valid()
      ensures State() == PatchStep(old(State()), body, patchOk, refetch)
    {
      outbox := outbox + [PatchCharacter(body)];
      if !patchOk {
        error := SaveFailedNotice;
      } else {
        Fetch(refetch);
        message := UpdatedNotice;
        showEdit := false;
      }
    }

    /** `handleSubmit` from start to end. */
    method Submit(form: Draft, up: UploadOutcome, patchOk: bool, refetch: FetchOutcome)
      requires Valid()
      modifies this
      ensures Valid()
      ensures State() == SubmitStep(old(State()), form, upload, up, patchOk, refetch)
    {
      var started := SubmitStart(form);
      if started {
        SubmitFinish(up, patchOk, refetch);
      }
    }
  }
}
