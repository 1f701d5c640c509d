/**
 * The Windows Update filter (checkFilters) and the collection loop of
 * GetWUAUpdates in ospatch/updates_windows.go, with the COM objects
 * replaced by the values their property reads return.
 */
module WindowsUpdates {
  import opened Common

  /** One property read of a COM object: its value, or the error it failed with. */
  datatype Read<T> = Got(value: T) | ReadFailed(msg: string)

  /** An entry of the Categories collection, whose CategoryID is read separately. */
  datatype Category = Category(categoryId: Read<string>)

  /**
   * An update as checkFilters sees it. A collection property stands for
   * getIterativeProp (the property and its Count); its elements are the
   * results of the Item reads, one per index below Count.
   */
  datatype Update = Update(
    title: Read<string>,
    kbArticleIds: Read<seq<Read<string>>>,
    categories: Read<seq<Read<Category>>>)

  /** Where a filter or a listing failed. */
  datatype FilterError =
    | TitleUnreadable(msg: string)        // updt.GetProperty("Title")
    | KbArticleIdsUnreadable(msg: string) // getIterativeProp(updt, "KBArticleIDs")
    | KbItemUnreadable(msg: string)       // kbArticleIDs.GetProperty("Item", i)
    | CategoriesUnreadable(msg: string)   // getIterativeProp(updt, "Categories")
    | CategoryItemUnreadable(msg: string) // categories.GetProperty("Item", i)
    | CategoryIdUnreadable(msg: string)   // GetProperty("CategoryID")
    | SearchFailed(msg: string)           // GetWUAUpdateCollection
    | CountFailed(msg: string)            // updts.Count()
    | UpdateUnreadable(msg: string)       // updts.Item(i)

  /** checkFilters' result: the verdict, or the error it returned. */
  datatype Checked = Passed(ok: bool) | CheckFailed(error: FilterError)

  /** The result of scanning a collection for an element in a pattern list. */
  datatype Scan = Match | NoMatch | ScanFailed(error: FilterError)

  // ---------------------------------------------------------------------
  // Reference definition of checkFilters
  // ---------------------------------------------------------------------

  /** KB article IDs in index order: the first unreadable one fails the scan, the first listed one matches. */
  function ScanKbs(kbs: seq<Read<string>>, patterns: seq<string>): Scan
    decreases |kbs|
  {
    if |kbs| == 0 then NoMatch
    else match kbs[0]
      case ReadFailed(m) => ScanFailed(KbItemUnreadable(m))
      case Got(kb) => if kb in patterns then Match else ScanKbs(kbs[1..], patterns)
  }

  /** Categories in index order, each read as an item and then as its CategoryID. */
  function ScanCategories(cats: seq<Read<Category>>, classFilter: seq<string>): Scan
    decreases |cats|
  {
    if |cats| == 0 then NoMatch
    else match cats[0]
      case ReadFailed(m) => ScanFailed(CategoryItemUnreadable(m))
      case Got(cat) =>
        match cat.categoryId
        case ReadFailed(m) => ScanFailed(CategoryIdUnreadable(m))
        case Got(id) => if id in classFilter then Match else ScanCategories(cats[1..], classFilter)
  }

  /**
   * checkFilters: exclusive patches decide alone when there are any; else
   * an excluded KB rejects; else an empty classification filter accepts;
   * else a category in the filter accepts.
   */
  function Filter(u: Update, kbExcludes: seq<string>, classFilter: seq<string>,
                  exclusivePatches: seq<string>): Checked
  {
    if u.title.ReadFailed? then CheckFailed(TitleUnreadable(u.title.msg))
    else if u.kbArticleIds.ReadFailed? then CheckFailed(KbArticleIdsUnreadable(u.kbArticleIds.msg))
    else
      var kbs := u.kbArticleIds.value;
      if |exclusivePatches| > 0 then
        match ScanKbs(kbs, exclusivePatches)
        case Match => Passed(true)
        case NoMatch => Passed(false)
        case ScanFailed(e) => CheckFailed(e)
      else
        var excluded := if |kbExcludes| > 0 then ScanKbs(kbs, kbExcludes) else NoMatch;
        if excluded.ScanFailed? then CheckFailed(excluded.error)
        else if excluded.Match? then Passed(false)
        else if |classFilter| == 0 then Passed(true)
        else if u.categories.ReadFailed? then CheckFailed(CategoriesUnreadable(u.categories.msg))
        else match ScanCategories(u.categories.value, classFilter)
          case Match => Passed(true)
          case NoMatch => Passed(false)
          case ScanFailed(e) => CheckFailed(e)
  }

  // ---------------------------------------------------------------------
  // checkFilters, step by step
  // ---------------------------------------------------------------------

  /** The inner `for _, e := range patterns { if e == x … }` loop. */
  method Contains(patterns: seq<string>, x: string) returns (found: bool)
    ensures found <==> x in patterns
  {
    var j := 0;
    while j < |patterns|
      invariant 0 <= j <= |patterns|
      invariant x !in patterns[..j]
    {
      if patterns[j] == x {
        return true;
      }
      assert patterns[..j + 1] == patterns[..j] + [patterns[j]];
      j := j + 1;
    }
    assert patterns[..j] == patterns;
    return false;
  }

  /** The KB loop of checkFilters: the first unreadable item fails, the first listed one matches. */
  method ScanKbArticles(kbs: seq<Read<string>>, patterns: seq<string>) returns (s: Scan)
    ensures s == ScanKbs(kbs, patterns)
  {
    var i := 0;
    while i < |kbs|
      invariant 0 <= i <= |kbs|
      invariant ScanKbs(kbs, patterns) == ScanKbs(kbs[i..], patterns)
    {
      var kbRaw := kbs[i];
      assert kbs[i..][0] == kbRaw && kbs[i..][1..] == kbs[i + 1..];
      if kbRaw.ReadFailed? {
        return ScanFailed(KbItemUnreadable(kbRaw.msg));
      }
      var found := Contains(patterns, kbRaw.value);
      if found {
        return Match;
      }
      i := i + 1;
    }
    return NoMatch;
  }

  /**
   * checkFilters: the title and the KB list are read first, whatever the
   * filters; the result is false whenever there is an error.
   */
  method CheckFilters(u: Update, kbExcludes: seq<string>, classFilter: seq<string>,
                      exclusivePatches: seq<string>) returns (ok: bool, err: Option<FilterError>)
    ensures err.Some? ==> !ok
    ensures Filter(u, kbExcludes, classFilter, exclusivePatches) ==
              if err.Some? then CheckFailed(err.value) else Passed(ok)
  {
    if u.title.ReadFailed? {
      return false, Some(TitleUnreadable(u.title.msg));
    }
    if u.kbArticleIds.ReadFailed? {
      return false, Some(KbArticleIdsUnreadable(u.kbArticleIds.msg));
    }
    var kbs := u.kbArticleIds.value;

    if |exclusivePatches| > 0 {
      var s := ScanKbArticles(kbs, exclusivePatches);
      if s.ScanFailed? {
        return false, Some(s.error);
      }
      // With exclusive patches the other filters do not apply.
      return s.Match?, None;
    }

    if |kbExcludes| > 0 {
      var s := ScanKbArticles(kbs, kbExcludes);
      if s.ScanFailed? {
        return false, Some(s.error);
      }
      if s.Match? {
        return false, None;
      }
    }

    if |classFilter| == 0 {
      return true, None;
    }

    if u.categories.ReadFailed? {
      return false, Some(CategoriesUnreadable(u.categories.msg));
    }
    var cats := u.categories.value;
    var i := 0;
    while i < |cats|
      invariant 0 <= i <= |cats|
      invariant ScanCategories(cats, classFilter) == ScanCategories(cats[i..], classFilter)
    {
      var catRaw := cats[i];
      assert cats[i..][0] == catRaw && cats[i..][1..] == cats[i + 1..];
      if catRaw.ReadFailed? {
        return false, Some(CategoryItemUnreadable(catRaw.msg));
      }
      var catIdRaw := catRaw.value.categoryId;
      if catIdRaw.ReadFailed? {
        return false, Some(CategoryIdUnreadable(catIdRaw.msg));
      }
      var found := Contains(classFilter, catIdRaw.value);
      if found {
        return true, None;
      }
      i := i + 1;
    }
    return false, None;
  }

  // ---------------------------------------------------------------------
  // GetWUAUpdates
  // ---------------------------------------------------------------------

  /** The search for updates: its failure, the failure of Count, or the Item reads in index order. */
  datatype Search =
    | SearchError(msg: string)
    | CountError(msg: string)
    | Found(items: seq<Read<Update>>)

  /** GetWUAUpdates' result: a collection of updates, or the error. */
  datatype Listing = Listed(updates: seq<Read<Update>>) | ListFailed(error: FilterError)

  /** `kept` in front of the listing of the rest; an error discards what was kept. */
  function Then(kept: seq<Read<Update>>, rest: Listing): Listing {
    match rest
    case Listed(more) => Listed(kept + more)
    case ListFailed(e) => rest
  }

  /** The filtering loop: the accepted updates in order, or the first error. */
  function Collect(items: seq<Read<Update>>, kbExcludes: seq<string>, classFilter: seq<string>,
                   exclusivePatches: seq<string>): Listing
    decreases |items|
  {
    if |items| == 0 then Listed([])
    else match items[0]
      case ReadFailed(m) => ListFailed(UpdateUnreadable(m))
      case Got(u) =>
        match Filter(u, kbExcludes, classFilter, exclusivePatches)
        case CheckFailed(e) => ListFailed(e)
        case Passed(ok) =>
          Then(if ok then [items[0]] else [], Collect(items[1..], kbExcludes, classFilter, exclusivePatches))
  }

  /** GetWUAUpdates: no classification filter and no KB exclude list returns the search as it is. */
  function WuaUpdates(search: Search, classFilter: seq<string>, kbExcludes: seq<string>,
                      exclusivePatches: seq<string>): Listing
  {
    match search
    case SearchError(m) => ListFailed(SearchFailed(m))
    case CountError(m) => ListFailed(CountFailed(m))
    case Found(items) =>
      if |classFilter| == 0 && |kbExcludes| == 0 then Listed(items)
      else Collect(items, kbExcludes, classFilter, exclusivePatches)
  }

  lemma ThenAssoc(a: seq<Read<Update>>, b: seq<Read<Update>>, rest: Listing)
    ensures Then(a, Then(b, rest)) == Then(a + b, rest)
  {
    if rest.Listed? {
      assert a + (b + rest.updates) == (a + b) + rest.updates;
    }
  }

  /** GetWUAUpdates: the search, the bypass, then checkFilters on every update in order. */
  method GetWuaUpdates(search: Search, classFilter: seq<string>, kbExcludes: seq<string>,
                       exclusivePatches: seq<string>) returns (r: Listing)
    ensures r == WuaUpdates(search, classFilter, kbExcludes, exclusivePatches)
  {
    if search.SearchError? {
      return ListFailed(SearchFailed(search.msg));
    }
    if search.CountError? {
      return ListFailed(CountFailed(search.msg));
    }
    var items := search.items;
    if |classFilter| == 0 && |kbExcludes| == 0 {
      return Listed(items);
    }

    var newUpdts: seq<Read<Update>> := [];
    var i := 0;
    while i < |items|
      invariant 0 <= i <= |items|
      invariant Collect(items, kbExcludes, classFilter, exclusivePatches) ==
                Then(newUpdts, Collect(items[i..], kbExcludes, classFilter, exclusivePatches))
    {
      var updt := items[i];
      assert items[i..][0] == updt && items[i..][1..] == items[i + 1..];
      if updt.ReadFailed? {
        return ListFailed(UpdateUnreadable(updt.msg));
      }
      var ok, err := CheckFilters(updt.value, kbExcludes, classFilter, exclusivePatches);
      if err.Some? {
        return ListFailed(err.value);
      }
      ThenAssoc(newUpdts, if ok then [updt] else [],
                Collect(items[i + 1..], kbExcludes, classFilter, exclusivePatches));
      if ok {
        newUpdts := newUpdts + [updt];
      } else {
        assert newUpdts + [] == newUpdts;
      }
      i := i + 1;
    }
    assert newUpdts + [] == newUpdts;
    return Listed(newUpdts);
  }

  // ---------------------------------------------------------------------
  // Properties of the filter
  // ---------------------------------------------------------------------

  predicate KbsReadable(kbs: seq<Read<string>>) {
    forall k :: 0 <= k < |kbs| ==> kbs[k].Got?
  }

  predicate CategoriesReadable(cats: seq<Read<Category>>) {
    forall k :: 0 <= k < |cats| ==> cats[k].Got? && cats[k].value.categoryId.Got?
  }

  /** Over readable KB IDs the scan matches exactly when some ID is in the pattern list. */
  lemma {:induction false} ScanKbsReadable(kbs: seq<Read<string>>, patterns: seq<string>)
    requires KbsReadable(kbs)
    ensures !ScanKbs(kbs, patterns).ScanFailed?
    ensures ScanKbs(kbs, patterns).Match? <==> exists k :: 0 <= k < |kbs| && kbs[k].value in patterns
    decreases |kbs|
  {
    if |kbs| > 0 {
      var rest := kbs[1..];
      assert forall k :: 0 <= k < |rest| ==> rest[k] == kbs[k + 1];
      ScanKbsReadable(rest, patterns);
      if exists k :: 0 <= k < |rest| && rest[k].value in patterns {
        var k :| 0 <= k < |rest| && rest[k].value in patterns;
        assert kbs[k + 1].value in patterns;
      }
      if exists k :: 0 <= k < |kbs| && kbs[k].value in patterns {
        var k :| 0 <= k < |kbs| && kbs[k].value in patterns;
        if k > 0 { assert rest[k - 1].value in patterns; }
      }
    }
  }

  /** Over readable categories the scan matches exactly when some CategoryID is in the filter. */
  lemma {:induction false} ScanCategoriesReadable(cats: seq<Read<Category>>, classFilter: seq<string>)
    requires CategoriesReadable(cats)
    ensures !ScanCategories(cats, classFilter).ScanFailed?
    ensures ScanCategories(cats, classFilter).Match? <==>
              exists k :: 0 <= k < |cats| && cats[k].value.categoryId.value in classFilter
    decreases |cats|
  {
    if |cats| > 0 {
      var rest := cats[1..];
      assert forall k :: 0 <= k < |rest| ==> rest[k] == cats[k + 1];
      ScanCategoriesReadable(rest, classFilter);
      if exists k :: 0 <= k < |rest| && rest[k].value.categoryId.value in classFilter {
        var k :| 0 <= k < |rest| && rest[k].value.categoryId.value in classFilter;
        assert cats[k + 1].value.categoryId.value in classFilter;
      }
      if exists k :: 0 <= k < |cats| && cats[k].value.categoryId.value in classFilter {
        var k :| 0 <= k < |cats| && cats[k].value.categoryId.value in classFilter;
        if k > 0 { assert rest[k - 1].value.categoryId.value in classFilter; }
      }
    }
  }

  /**
   * With exclusive patches the update is accepted exactly when one of its KB
   * IDs is an exclusive patch; the exclude list and the classification
   * filter play no part.
   */
  lemma ExclusivePatchesDecide(u: Update, kbExcludes: seq<string>, classFilter: seq<string>,
                               exclusivePatches: seq<string>)
    requires u.title.Got? && u.kbArticleIds.Got? && KbsReadable(u.kbArticleIds.value)
    requires |exclusivePatches| > 0
    ensures Filter(u, kbExcludes, classFilter, exclusivePatches) ==
              Passed(exists k :: 0 <= k < |u.kbArticleIds.value| && u.kbArticleIds.value[k].value in exclusivePatches)
  {
    ScanKbsReadable(u.kbArticleIds.value, exclusivePatches);
  }

  /** Without exclusive patches, an update with an excluded KB ID is rejected. */
  lemma ExcludedKbRejects(u: Update, kbExcludes: seq<string>, classFilter: seq<string>, k: nat)
    requires u.title.Got? && u.kbArticleIds.Got? && KbsReadable(u.kbArticleIds.value)
    requires k < |u.kbArticleIds.value| && u.kbArticleIds.value[k].value in kbExcludes
    ensures Filter(u, kbExcludes, classFilter, []) == Passed(false)
  {
    ScanKbsReadable(u.kbArticleIds.value, kbExcludes);
  }

  /** Without exclusive patches, an update with no excluded KB ID passes an empty classification filter. */
  lemma EmptyClassFilterAccepts(u: Update, kbExcludes: seq<string>)
    requires u.title.Got? && u.kbArticleIds.Got? && KbsReadable(u.kbArticleIds.value)
    requires forall k :: 0 <= k < |u.kbArticleIds.value| ==> u.kbArticleIds.value[k].value !in kbExcludes
    ensures Filter(u, kbExcludes, [], []) == Passed(true)
  {
    ScanKbsReadable(u.kbArticleIds.value, kbExcludes);
  }

  /**
   * Without exclusive patches and with no excluded KB ID, a non-empty
   * classification filter accepts exactly the updates with a category in it.
   */
  lemma ClassFilterDecides(u: Update, kbExcludes: seq<string>, classFilter: seq<string>)
    requires u.title.Got? && u.kbArticleIds.Got? && KbsReadable(u.kbArticleIds.value)
    requires forall k :: 0 <= k < |u.kbArticleIds.value| ==> u.kbArticleIds.value[k].value !in kbExcludes
    requires |classFilter| > 0
    requires u.categories.Got? && CategoriesReadable(u.categories.value)
    ensures Filter(u, kbExcludes, classFilter, []) ==
              Passed(exists k :: 0 <= k < |u.categories.value| &&
                                 u.categories.value[k].value.categoryId.value in classFilter)
  {
    ScanKbsReadable(u.kbArticleIds.value, kbExcludes);
    ScanCategoriesReadable(u.categories.value, classFilter);
  }

  /** The title is read first: an unreadable title fails the filter whatever the lists say. */
  lemma UnreadableTitleFails(u: Update, kbExcludes: seq<string>, classFilter: seq<string>,
                             exclusivePatches: seq<string>)
    requires u.title.ReadFailed?
    ensures Filter(u, kbExcludes, classFilter, exclusivePatches) == CheckFailed(TitleUnreadable(u.title.msg))
  {
  }

  // ---------------------------------------------------------------------
  // Properties of the listing
  // ---------------------------------------------------------------------

  /** An entry checkFilters accepts. */
  predicate Passes(x: Read<Update>, kbExcludes: seq<string>, classFilter: seq<string>,
                   exclusivePatches: seq<string>)
  {
    x.Got? && Filter(x.value, kbExcludes, classFilter, exclusivePatches) == Passed(true)
  }

  /** An entry that stops the loop: an unreadable update or a filter error. */
  predicate Aborts(x: Read<Update>, kbExcludes: seq<string>, classFilter: seq<string>,
                   exclusivePatches: seq<string>)
  {
    x.ReadFailed? || Filter(x.value, kbExcludes, classFilter, exclusivePatches).CheckFailed?
  }

  /** The accepted entries, in order. */
  function Kept(items: seq<Read<Update>>, kbExcludes: seq<string>, classFilter: seq<string>,
                exclusivePatches: seq<string>): seq<Read<Update>>
    decreases |items|
  {
    if |items| == 0 then []
    else (if Passes(items[0], kbExcludes, classFilter, exclusivePatches) then [items[0]] else [])
         + Kept(items[1..], kbExcludes, classFilter, exclusivePatches)
  }

  /** Keeping distributes over concatenation, so the kept entries stay in their original order. */
  lemma {:induction false} KeptConcat(xs: seq<Read<Update>>, ys: seq<Read<Update>>, kbExcludes: seq<string>,
                                      classFilter: seq<string>, exclusivePatches: seq<string>)
    ensures Kept(xs + ys, kbExcludes, classFilter, exclusivePatches) ==
            Kept(xs, kbExcludes, classFilter, exclusivePatches) + Kept(ys, kbExcludes, classFilter, exclusivePatches)
    decreases |xs|
  {
    if |xs| == 0 {
      assert xs + ys == ys;
    } else {
      assert (xs + ys)[0] == xs[0];
      assert (xs + ys)[1..] == xs[1..] + ys;
      KeptConcat(xs[1..], ys, kbExcludes, classFilter, exclusivePatches);
    }
  }

  /** An entry is kept exactly when it is in the list and is accepted. */
  lemma {:induction false} KeptMembers(items: seq<Read<Update>>, kbExcludes: seq<string>,
                                       classFilter: seq<string>, exclusivePatches: seq<string>)
    ensures forall x :: x in Kept(items, kbExcludes, classFilter, exclusivePatches) <==>
                        x in items && Passes(x, kbExcludes, classFilter, exclusivePatches)
    decreases |items|
  {
    if |items| > 0 {
      KeptMembers(items[1..], kbExcludes, classFilter, exclusivePatches);
      assert items == [items[0]] + items[1..];
    }
  }

  /**
   * The loop fails exactly when some entry aborts it; otherwise it lists
   * the accepted entries in order.
   */
  lemma {:induction false} CollectSpec(items: seq<Read<Update>>, kbExcludes: seq<string>,
                                       classFilter: seq<string>, exclusivePatches: seq<string>)
    ensures Collect(items, kbExcludes, classFilter, exclusivePatches).ListFailed? <==>
              exists k :: 0 <= k < |items| && Aborts(items[k], kbExcludes, classFilter, exclusivePatches)
    ensures Collect(items, kbExcludes, classFilter, exclusivePatches).Listed? ==>
              Collect(items, kbExcludes, classFilter, exclusivePatches) ==
              Listed(Kept(items, kbExcludes, classFilter, exclusivePatches))
    decreases |items|
  {
    if |items| > 0 {
      var rest := items[1..];
      CollectSpec(rest, kbExcludes, classFilter, exclusivePatches);
      assert forall k :: 0 <= k < |rest| ==> rest[k] == items[k + 1];
      if exists k :: 0 <= k < |items| && Aborts(items[k], kbExcludes, classFilter, exclusivePatches) {
        var k :| 0 <= k < |items| && Aborts(items[k], kbExcludes, classFilter, exclusivePatches);
        if k > 0 { assert Aborts(rest[k - 1], kbExcludes, classFilter, exclusivePatches); }
      }
      if exists k :: 0 <= k < |rest| && Aborts(rest[k], kbExcludes, classFilter, exclusivePatches) {
        var k :| 0 <= k < |rest| && Aborts(rest[k], kbExcludes, classFilter, exclusivePatches);
        assert Aborts(items[k + 1], kbExcludes, classFilter, exclusivePatches);
      }
    }
  }

  /**
   * No classification filter and no exclude list: the whole collection is
   * returned, unread, even when there are exclusive patches.
   */
  lemma BypassReturnsAll(items: seq<Read<Update>>, exclusivePatches: seq<string>)
    ensures WuaUpdates(Found(items), [], [], exclusivePatches) == Listed(items)
  {
  }

  /**
   * With a filter in force, a listing that succeeds holds exactly the
   * accepted updates in their original order, and a listing fails exactly
   * when some update is unreadable or fails its filter.
   */
  lemma FilteredListing(items: seq<Read<Update>>, classFilter: seq<string>, kbExcludes: seq<string>,
                        exclusivePatches: seq<string>)
    requires |classFilter| > 0 || |kbExcludes| > 0
    ensures var r := WuaUpdates(Found(items), classFilter, kbExcludes, exclusivePatches);
      && (r.ListFailed? <==> exists k :: 0 <= k < |items| && Aborts(items[k], kbExcludes, classFilter, exclusivePatches))
      && (r.Listed? ==> r.updates == Kept(items, kbExcludes, classFilter, exclusivePatches))
      && (r.Listed? ==> forall x :: x in r.updates <==> x in items && Passes(x, kbExcludes, classFilter, exclusivePatches))
  {
    CollectSpec(items, kbExcludes, classFilter, exclusivePatches);
    KeptMembers(items, kbExcludes, classFilter, exclusivePatches);
  }
}
