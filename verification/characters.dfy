/**
 * Character records as the client sees them, the lookup of the selected record,
 * the rules that re-derive the selection after the list changes, and the
 * client-side search filter.
 */
module Characters {
  import opened Wrappers
  import opened Text

  /**
   * A character record. Only the fields the client logic reads are kept; `kind`
   * is the record's `type` field (a reserved word in Dafny). A field missing from
   * the JSON object is `None`.
   */
  datatype Record = Record(id: string, name: Option<string>, kind: Option<string>, description: Option<string>)

  /** Some record of `rs` has identifier `id`. */
  predicate HasId(rs: seq<Record>, id: string) {
    exists i :: 0 <= i < |rs| && rs[i].id == id
  }

  /** `rs.some((item) => item.id === current)`: a null selection matches no record. */
  predicate Holds(rs: seq<Record>, current: Option<string>) {
    current.Some? && HasId(rs, current.value)
  }

  /** A selection is valid for a list when it is null or names a record of the list. */
  predicate SelectionValid(rs: seq<Record>, sel: Option<string>) {
    sel.None? || HasId(rs, sel.value)
  }

  /** `rs[0]?.id ?? null`: the first record's identifier, null for an empty list. */
  function FirstId(rs: seq<Record>): (r: Option<string>)
    ensures r.None? <==> |rs| == 0
    ensures SelectionValid(rs, r)
  {
    if |rs| == 0 then None else Some(rs[0].id)
  }

  /**
   * `characters.find((item) => item.id === selectedId) ?? null`: the selected
   * record, found by membership in the current list.
   */
  function FindById(rs: seq<Record>, sel: Option<string>): (r: Option<Record>)
    ensures r.Some? <==> Holds(rs, sel)
    ensures r.Some? ==> r.value in rs && sel == Some(r.value.id)
  {
    if |rs| == 0 then None
    else if sel == Some(rs[0].id) then Some(rs[0])
    else
      var r := FindById(rs[1..], sel);
      assert Holds(rs[1..], sel) ==> Holds(rs, sel) by {
        if Holds(rs[1..], sel) {
          var i :| 0 <= i < |rs[1..]| && rs[1..][i].id == sel.value;
          assert rs[i + 1].id == sel.value;
        }
      }
      r
  }

  /** Of several records with the selected identifier, `find` yields the first. */
  lemma {:induction false} FindByIdFirst(rs: seq<Record>, sel: Option<string>, i: nat)
    requires i < |rs| && sel == Some(rs[i].id)
    requires forall j :: 0 <= j < i ==> sel != Some(rs[j].id)
    ensures FindById(rs, sel) == Some(rs[i])
  {
    if i > 0 {
      FindByIdFirst(rs[1..], sel, i - 1);
    }
  }

  /**
   * The selection updater run after a successful fetch of `data`: null for an
   * empty list, the current selection when it is still listed, else the first
   * record's identifier.
   */
  function ReconcileFetched(data: seq<Record>, current: Option<string>): (r: Option<string>)
    ensures SelectionValid(data, r)
    ensures r.None? <==> |data| == 0
    ensures Holds(data, current) ==> r == current
    ensures r == current || r == FirstId(data)
  {
    if |data| == 0 then None
    else if Holds(data, current) then current
    else FirstId(data)
  }

  /**
   * The selection updater run when the cached list `cached` replaces a failed
   * fetch: the current selection when it is listed, else the first identifier.
   */
  function ReconcileCached(cached: seq<Record>, current: Option<string>): (r: Option<string>)
    ensures SelectionValid(cached, r)
    ensures |cached| > 0 ==> r.Some?
    ensures Holds(cached, current) ==> r == current
    ensures r == current || r == FirstId(cached)
  {
    if Holds(cached, current) then current else FirstId(cached)
  }

  /**
   * The two updaters agree on every list, so the explicit empty-list test of the
   * fetch updater changes nothing.
   */
  lemma ReconcileAgree(rs: seq<Record>, current: Option<string>)
    ensures ReconcileCached(rs, current) == ReconcileFetched(rs, current)
  {
  }

  /** Reconciling twice against the same list gives what reconciling once gives. */
  lemma ReconcileStable(rs: seq<Record>, current: Option<string>)
    ensures ReconcileFetched(rs, ReconcileFetched(rs, current)) == ReconcileFetched(rs, current)
  {
    var r := ReconcileFetched(rs, current);
    if r.Some? {
      assert Holds(rs, r);
    }
  }

  /** After reconciliation a record is selected exactly when the list is non-empty. */
  lemma ReconciledIsFound(rs: seq<Record>, current: Option<string>)
    ensures FindById(rs, ReconcileFetched(rs, current)).Some? <==> |rs| > 0
  {
    var r := ReconcileFetched(rs, current);
    if |rs| > 0 {
      assert Holds(rs, r);
    }
  }

  /**
   * The selection updater of the mount effect, `c ?? cached[0]?.id ?? null`:
   * an existing selection is kept as it is, listed or not.
   */
  function SeedSelection(cached: seq<Record>, current: Option<string>): (r: Option<string>)
    ensures current.Some? ==> r == current
    ensures current.None? ==> SelectionValid(cached, r) && (r.Some? <==> |cached| > 0)
    ensures current.None? ==> r == FirstId(cached)
  {
    if current.Some? then current else FirstId(cached)
  }

  /**
   * Seeding and the cached-list updater agree whenever the selection is null or
   * listed; they differ only on a selection the cached list does not hold,
   * which seeding keeps and the updater replaces.
   */
  lemma SeedAgreesWithReconcile(cached: seq<Record>, current: Option<string>)
    ensures current.None? || Holds(cached, current) <==> SeedSelection(cached, current) == ReconcileCached(cached, current)
  {
    if current.Some? && !Holds(cached, current) {
      assert SelectionValid(cached, ReconcileCached(cached, current));
    }
  }

  /** An optional text field, lowercased, contains the term; a missing field never does. */
  predicate FieldContains(field: Option<string>, term: string) {
    field.Some? && Contains(ToLower(field.value), term)
  }

  /** A record matches a lowercased term through its name, type or description. */
  predicate Matches(r: Record, term: string)
    ensures Matches(r, term) ==> r.name.Some? || r.kind.Some? || r.description.Some?
  {
    FieldContains(r.name, term) || FieldContains(r.kind, term) || FieldContains(r.description, term)
  }

  /** `a` is obtained from `b` by deleting elements, keeping the order of the rest. */
  predicate IsSubsequence<T(==)>(a: seq<T>, b: seq<T>)
    decreases |b|
  {
    a == [] || (b != [] && ((a[0] == b[0] && IsSubsequence(a[1..], b[1..])) || IsSubsequence(a, b[1..])))
  }

  lemma {:induction false} SubsequenceRefl<T>(a: seq<T>)
    ensures IsSubsequence(a, a)
  {
    if a != [] {
      SubsequenceRefl(a[1..]);
    }
  }

  /**
   * `list.filter(...)` with the match predicate: the records of `rs` that match,
   * in their order, each as often as it occurs in `rs`.
   */
  function Filter(rs: seq<Record>, term: string): (r: seq<Record>)
    ensures forall x :: x in r ==> Matches(x, term)
    ensures forall x :: Matches(x, term) ==> multiset(r)[x] == multiset(rs)[x]
    ensures IsSubsequence(r, rs)
  {
    if rs == [] then []
    else
      var rest := Filter(rs[1..], term);
      assert rs == [rs[0]] + rs[1..];
      if Matches(rs[0], term) then
        var r := [rs[0]] + rest;
        assert r[1..] == rest;
        r
      else
        rest
  }

  /** Filtering a filtered list again changes nothing. */
  lemma {:induction false} FilterIdempotent(rs: seq<Record>, term: string)
    ensures Filter(Filter(rs, term), term) == Filter(rs, term)
  {
    if rs != [] {
      FilterIdempotent(rs[1..], term);
      var rest := Filter(rs[1..], term);
      if Matches(rs[0], term) {
        var r := [rs[0]] + rest;
        assert r[0] == rs[0] && r[1..] == rest;
      }
    }
  }

  /**
   * `visibleCharacters`: the whole list when the trimmed query is empty, otherwise
   * the order-preserving selection of the records whose name, type or description
   * contains the trimmed, lowercased query.
   */
  function VisibleCharacters(all: seq<Record>, query: string): (r: seq<Record>)
    ensures Trim(query) == [] ==> r == all
    ensures IsSubsequence(r, all)
    ensures Trim(query) != [] ==> forall x :: x in r <==> x in all && Matches(x, ToLower(Trim(query)))
    ensures Trim(query) != [] ==> forall x :: Matches(x, ToLower(Trim(query))) ==> multiset(r)[x] == multiset(all)[x]
  {
    var term := ToLower(Trim(query));
    if term == [] then
      SubsequenceRefl(all);
      all
    else
      var r := Filter(all, term);
      assert forall x :: x in r <==> x in all && Matches(x, term) by {
        forall x ensures x in r <==> x in all && Matches(x, term) {
          if Matches(x, term) {
            assert multiset(r)[x] == multiset(all)[x];
          }
        }
      }
      r
  }

  /** Filtering the visible list by the same query again changes nothing. */
  lemma VisibleIdempotent(all: seq<Record>, query: string)
    ensures VisibleCharacters(VisibleCharacters(all, query), query) == VisibleCharacters(all, query)
  {
    var term := ToLower(Trim(query));
    if term != [] {
      FilterIdempotent(all, term);
    }
  }

  /** The search "drag" over "Dragon King" and "Goblin" keeps only "Dragon King". */
  lemma DragSearchExample()
    ensures var dragon := Record("1", Some("Dragon King"), None, None);
            var goblin := Record("2", Some("Goblin"), None, None);
            VisibleCharacters([dragon, goblin], "drag") == [dragon]
  {
    var dragon := Record("1", Some("Dragon King"), None, None);
    var goblin := Record("2", Some("Goblin"), None, None);
    DragTerm();
    DragonMatches();
    GoblinMisses();
    var all := [dragon, goblin];
    assert all[1..] == [goblin];
    assert [goblin][1..] == [];
  }

  lemma DragTerm()
    ensures ToLower(Trim("drag")) == "drag"
  {
    assert Trim("drag") == "drag";
    var l := ToLower("drag");
    assert l[0] == 'd' && l[1] == 'r' && l[2] == 'a' && l[3] == 'g';
  }

  lemma DragonMatches()
    ensures Matches(Record("1", Some("Dragon King"), None, None), "drag")
  {
    var d := ToLower("Dragon King");
    assert d[0] == 'd' && d[1] == 'r' && d[2] == 'a' && d[3] == 'g';
    assert d[..4] == "drag";
    assert OccursAt(d, "drag", 0);
  }

  lemma GoblinMisses()
    ensures !Matches(Record("2", Some("Goblin"), None, None), "drag")
  {
    var g := ToLower("Goblin");
    assert g[0] == 'g' && g[1] == 'o' && g[2] == 'b';
    assert g[..4] != "drag" by { assert g[..4][0] != 'd'; }
    assert g[1..][..4] != "drag" by { assert g[1..][..4][0] != 'd'; }
    assert g[1..][1..][..4] != "drag" by { assert g[1..][1..][..4][0] != 'd'; }
    assert !ContainsScan(g[1..][1..][1..], "drag");
    ContainsScanAgrees(g, "drag");
  }
}
