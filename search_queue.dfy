/** The search worker: user interface events are coalesced in a set of
    pending kinds, and one pass of the worker takes the whole set, searches
    again if a search was asked for, rebuilds the filter snapshots that are
    missing or stale, and publishes the filtered results.

    The worker thread, its lock and its condition variable are not modelled:
    the producers and the consumer are methods called one at a time. */
module SearchQueues {
  import opened Common
  import ResultDocuments
  import opened SearchFilter

  type ResultDocument = ResultDocuments.ResultDocument

  /** The kinds of user interface event; a kind is pending or not. */
  datatype GuiEvent = Search | Size | Type | Location

  /** What the search backend answers for a query. */
  datatype SearchOutcome = Found(docs: seq<ResultDocument>) | Failed(message: string)

  /** What a pass reads from its collaborators: the backend, the type
      panel's (parser name, checked) entries, the checked locations and the
      number of folders, the size panel's bounds (`None` when it gives none)
      and, per index, whether it is an email index. */
  datatype Collaborators = Collaborators(
    backend: string -> SearchOutcome,
    parserStates: seq<(string, bool)>,
    checkedPaths: seq<string>,
    folderCount: int,
    sizeBounds: Option<SizeBounds>,
    indexIsEmail: seq<bool>)

  /** The results handed to the result panel, with the header flags. */
  datatype Publication = Publication(visible: seq<ResultDocument>, filesFound: bool, emailsFound: bool)

  /** What a pass shows the user: the message of a failed search and the
      published results, each when there is one. */
  datatype PassReport = PassReport(searchError: Option<string>, publication: Option<Publication>)
  {
    /** The search bar is enabled again after an error and after a publish. */
    predicate ReenablesSearchBar()
    {
      searchError.Some? || publication.Some?
    }
  }

  /** The state a pass reads and writes. */
  datatype WorkerState = WorkerState(
    results: Option<seq<ResultDocument>>,
    checkedParsers: Option<set<string>>,
    allParsersChecked: bool,
    checkedLocations: Option<set<string>>,
    allLocationsChecked: bool)

  // ---------------------------------------------------------------------
  // One pass, as a function of the state before it
  // ---------------------------------------------------------------------

  /** The results after the search step, and the error it reports. */
  function SearchStep(results: Option<seq<ResultDocument>>, query: Option<string>,
                      events: set<GuiEvent>, env: Collaborators): (Option<seq<ResultDocument>>, Option<string>)
    requires Search in events ==> query.Some?
  {
    if Search !in events then (results, None)
    else
      match env.backend(query.value)
      case Found(docs) => (Some(docs), None)
      case Failed(message) => (None, Some(message))
  }

  /** Document sizes are readable wherever the pass will filter by size. */
  predicate PassSizesReadable(s: WorkerState, query: Option<string>, events: set<GuiEvent>, env: Collaborators)
    requires Search in events ==> query.Some?
  {
    var results := SearchStep(s.results, query, events, env).0;
    results.Some? ==> SizesReadable(results.value, env.sizeBounds)
  }

  predicate RebuildsParsers(s: WorkerState, events: set<GuiEvent>)
  {
    s.checkedParsers.None? || Type in events
  }

  predicate RebuildsLocations(s: WorkerState, events: set<GuiEvent>)
  {
    s.checkedLocations.None? || Location in events
  }

  /** The parser filter after a pass: rebuilt from the type panel when it is
      missing or a type change was pending, kept otherwise. */
  function ParserStep(checkedParsers: Option<set<string>>, allParsersChecked: bool,
                      events: set<GuiEvent>, states: seq<(string, bool)>): (r: (Option<set<string>>, bool))
    ensures r.0.Some?
  {
    if checkedParsers.None? || Type in events then
      var names := CheckedParserNames(states);
      (Some(names), |names| == |states|)
    else (checkedParsers, allParsersChecked)
  }

  /** The location filter after a pass: rebuilt from the checked paths when
      it is missing or a location change was pending, kept otherwise. */
  function LocationStep(checkedLocations: Option<set<string>>, allLocationsChecked: bool,
                        events: set<GuiEvent>, checkedPaths: seq<string>, folderCount: int): (r: (Option<set<string>>, bool))
    ensures r.0.Some?
  {
    if checkedLocations.None? || Location in events then
      var snapshot := LocationSnapshot(checkedPaths, folderCount);
      (Some(snapshot.0), snapshot.1)
    else (checkedLocations, allLocationsChecked)
  }

  /** What is published for the given results and filter settings. */
  function PublishStep(results: seq<ResultDocument>, f: FilterState, env: Collaborators): Publication
  {
    Publication(Filter(results, env.sizeBounds, f), SomeFileIndex(env.indexIsEmail), SomeEmailIndex(env.indexIsEmail))
  }

  /** One pass: the state after it and what it shows the user. */
  function PassSpec(s: WorkerState, query: Option<string>, events: set<GuiEvent>, env: Collaborators): (WorkerState, PassReport)
    requires Search in events ==> query.Some?
    requires PassSizesReadable(s, query, events, env)
  {
    var (results, error) := SearchStep(s.results, query, events, env);
    var (cp, allP) := ParserStep(s.checkedParsers, s.allParsersChecked, events, env.parserStates);
    var (cl, allL) := LocationStep(s.checkedLocations, s.allLocationsChecked, events, env.checkedPaths, env.folderCount);
    var s' := WorkerState(results, cp, allP, cl, allL);
    var published :=
      if results.None? then None
      else Some(PublishStep(results.value, FilterState(cp.value, allP, cl.value, allL), env));
    (s', PassReport(error, published))
  }

  // ---------------------------------------------------------------------
  // Properties of a pass
  // ---------------------------------------------------------------------

  /** Each filter snapshot is rebuilt from its collaborator exactly when it
      is missing or its kind of event was pending, and kept otherwise. */
  lemma FilterRebuildRule(s: WorkerState, query: Option<string>, events: set<GuiEvent>, env: Collaborators)
    requires Search in events ==> query.Some?
    requires PassSizesReadable(s, query, events, env)
    ensures var s' := PassSpec(s, query, events, env).0;
            && (RebuildsParsers(s, events) ==>
                  s'.checkedParsers == Some(CheckedParserNames(env.parserStates)) &&
                  (s'.allParsersChecked <==> |CheckedParserNames(env.parserStates)| == |env.parserStates|))
            && (!RebuildsParsers(s, events) ==>
                  s'.checkedParsers == s.checkedParsers && s'.allParsersChecked == s.allParsersChecked)
            && (RebuildsLocations(s, events) ==>
                  (forall p :: p in s'.checkedLocations.value <==> p in env.checkedPaths) &&
                  (s'.allLocationsChecked <==> |env.checkedPaths| == env.folderCount))
            && (!RebuildsLocations(s, events) ==>
                  s'.checkedLocations == s.checkedLocations && s'.allLocationsChecked == s.allLocationsChecked)
            && s'.checkedParsers.Some? && s'.checkedLocations.Some?
  {
  }

  /** A failed search clears the results and publishes nothing, reports the
      backend's message, and still rebuilds the filters that need it. */
  lemma FailedSearchPublishesNothing(s: WorkerState, query: Option<string>, events: set<GuiEvent>, env: Collaborators)
    requires Search in events && query.Some?
    requires env.backend(query.value).Failed?
    ensures PassSizesReadable(s, query, events, env)
    ensures var (s', report) := PassSpec(s, query, events, env);
            && s'.results.None?
            && report.publication.None?
            && report.searchError == Some(env.backend(query.value).message)
            && report.ReenablesSearchBar()
            && (RebuildsParsers(s, events) ==> s'.checkedParsers == Some(CheckedParserNames(env.parserStates)))
            && (RebuildsLocations(s, events) ==> s'.checkedLocations == Some(LocationSnapshot(env.checkedPaths, env.folderCount).0))
  {
  }

  /** A pass without a search keeps the results and reports no error; it
      publishes exactly when some search has succeeded before. */
  lemma FilterOnlyPassKeepsResults(s: WorkerState, query: Option<string>, events: set<GuiEvent>, env: Collaborators)
    requires Search !in events
    requires PassSizesReadable(s, query, events, env)
    ensures var (s', report) := PassSpec(s, query, events, env);
            && s'.results == s.results
            && report.searchError.None?
            && (report.publication.Some? <==> s.results.Some?)
  {
  }

  /** A search is always answered: the search bar is enabled again after
      every pass that searched, whether the search failed or not. */
  lemma SearchPassReenablesSearchBar(s: WorkerState, query: Option<string>, events: set<GuiEvent>, env: Collaborators)
    requires Search in events && query.Some?
    requires PassSizesReadable(s, query, events, env)
    ensures PassSpec(s, query, events, env).1.ReenablesSearchBar()
  {
  }

  /** What a pass publishes: the surviving results in their order, and
      header flags that depend on the indexes only, not on the survivors. */
  lemma {:induction false} PublicationContents(s: WorkerState, query: Option<string>, events: set<GuiEvent>, env: Collaborators)
    requires Search in events ==> query.Some?
    requires PassSizesReadable(s, query, events, env)
    ensures var (s', report) := PassSpec(s, query, events, env);
            && (report.publication.Some? <==> s'.results.Some?)
            && (report.publication.Some? ==>
                  var p := report.publication.value;
                  var f := FilterState(s'.checkedParsers.value, s'.allParsersChecked,
                                       s'.checkedLocations.value, s'.allLocationsChecked);
                  && (forall d :: d in p.visible <==> d in s'.results.value && Survives(d, env.sizeBounds, f))
                  && (p.filesFound <==> SomeFileIndex(env.indexIsEmail))
                  && (p.emailsFound <==> SomeEmailIndex(env.indexIsEmail)))
  {
    var (s', report) := PassSpec(s, query, events, env);
    if report.publication.Some? {
      var f := FilterState(s'.checkedParsers.value, s'.allParsersChecked,
                           s'.checkedLocations.value, s'.allLocationsChecked);
      forall d
        ensures d in report.publication.value.visible <==> d in s'.results.value && Survives(d, env.sizeBounds, f)
      {
        FilterMembership(s'.results.value, env.sizeBounds, f, d);
      }
    }
  }

  // ---------------------------------------------------------------------
  // The queue and its worker
  // ---------------------------------------------------------------------

  ghost function Objects(docs: seq<ResultDocument>): set<ResultDocument>
  {
    set i | 0 <= i < |docs| :: docs[i]
  }

  ghost predicate AllValid(docs: seq<ResultDocument>)
    reads Objects(docs)
  {
    forall i :: 0 <= i < |docs| ==> docs[i].Valid()
  }

  /** The backend's documents keep their caches consistent whenever the
      pass will search. */
  ghost predicate BackendValid(query: Option<string>, events: set<GuiEvent>, env: Collaborators)
    reads if Search in events && query.Some? && env.backend(query.value).Found?
          then Objects(env.backend(query.value).docs) else {}
  {
    Search in events && query.Some? && env.backend(query.value).Found? ==>
      AllValid(env.backend(query.value).docs)
  }

  class SearchQueue {
    var pending: set<GuiEvent>
    var query: Option<string>
    var searchBarEnabled: bool
    var results: Option<seq<ResultDocument>>
    var checkedParsers: Option<set<string>>
    var allParsersChecked: bool
    var checkedLocations: Option<set<string>>
    var allLocationsChecked: bool

    function State(): WorkerState
      reads this
    {
      WorkerState(results, checkedParsers, allParsersChecked, checkedLocations, allLocationsChecked)
    }

    ghost function ResultObjects(): set<ResultDocument>
      reads this
    {
      if results.Some? then Objects(results.value) else {}
    }

    /** A pending search always has a query, and the documents held keep
        their caches consistent. */
    ghost predicate Valid()
      reads this, ResultObjects()
    {
      && (Search in pending ==> query.Some?)
      && (results.Some? ==> AllValid(results.value))
    }

    /** The documents a pass with these events may touch: the results it
        will filter. */
    ghost function PassObjects(events: set<GuiEvent>, env: Collaborators): set<ResultDocument>
      requires Search in events ==> query.Some?
      reads this
    {
      var r := SearchStep(results, query, events, env).0;
      if r.Some? then Objects(r.value) else {}
    }

    constructor ()
      ensures Valid()
      ensures pending == {} && query.None? && searchBarEnabled
      ensures State() == WorkerState(None, None, false, None, false)
    {
      pending, query, searchBarEnabled := {}, None, true;
      results, checkedParsers, allParsersChecked := None, None, false;
      checkedLocations, allLocationsChecked := None, false;
    }

    /** The search bar's listener: the query is overwritten, not queued,
        and a search becomes pending. */
    method SubmitSearch(q: string)
      requires Valid()
      modifies this`query, this`searchBarEnabled, this`pending
      ensures Valid()
      ensures query == Some(q) && !searchBarEnabled
      ensures pending == old(pending) + {Search}
    {
      query := Some(q);
      searchBarEnabled := false;
      pending := pending + {Search};
    }

    /** The listeners of the size, type and location panels. */
    method FilterChanged(kind: GuiEvent)
      requires kind != Search
      requires Valid()
      modifies this`pending
      ensures Valid()
      ensures pending == old(pending) + {kind}
    {
      pending := pending + {kind};
    }

    /** The worker's take: the whole pending set, leaving it empty. `None`
        stands for the wait while nothing is pending. */
    method TryDrain() returns (drained: Option<set<GuiEvent>>)
      requires Valid()
      modifies this`pending
      ensures Valid()
      ensures drained == if old(pending) == {} then None else Some(old(pending))
      ensures pending == {}
    {
      if pending == {} {
        drained := None;
      } else {
        drained := Some(pending);
        pending := {};
      }
    }

    method UpdateParserFilter(states: seq<(string, bool)>)
      modifies this`checkedParsers, this`allParsersChecked
      ensures checkedParsers == Some(CheckedParserNames(states))
      ensures allParsersChecked <==> |CheckedParserNames(states)| == |states|
    {
      var checked, all := BuildParserFilter(states);
      checkedParsers, allParsersChecked := Some(checked), all;
    }

    /** The search step of a pass. */
    method RunSearch(events: set<GuiEvent>, env: Collaborators) returns (error: Option<string>)
      requires Search in events ==> query.Some?
      modifies this`results, this`searchBarEnabled
      ensures (results, error) == SearchStep(old(results), query, events, env)
      ensures searchBarEnabled == (error.Some? || old(searchBarEnabled))
    {
      error := None;
      if Search in events {
        match env.backend(query.value)
        case Found(docs) =>
          results := Some(docs);
        case Failed(message) =>
          error := Some(message);
          searchBarEnabled := true;
          results := None;
      }
    }

    /** The two filter steps of a pass. */
    method RefreshFilters(events: set<GuiEvent>, env: Collaborators)
      modifies this`checkedParsers, this`allParsersChecked, this`checkedLocations, this`allLocationsChecked
      ensures (checkedParsers, allParsersChecked) ==
                ParserStep(old(checkedParsers), old(allParsersChecked), events, env.parserStates)
      ensures (checkedLocations, allLocationsChecked) ==
                LocationStep(old(checkedLocations), old(allLocationsChecked), events, env.checkedPaths, env.folderCount)
    {
      if checkedParsers.None? || Type in events {
        UpdateParserFilter(env.parserStates);
      }
      if checkedLocations.None? || Location in events {
        var snapshot := LocationSnapshot(env.checkedPaths, env.folderCount);
        checkedLocations, allLocationsChecked := Some(snapshot.0), snapshot.1;
      }
    }

    /** The filter settings held by the worker. */
    function CurrentFilter(): FilterState
      requires checkedParsers.Some? && checkedLocations.Some?
      reads this
    {
      FilterState(checkedParsers.value, allParsersChecked, checkedLocations.value, allLocationsChecked)
    }

    /** The publish step of a pass: filter the results, compute the header
        flags, and enable the search bar again. */
    method Publish(env: Collaborators) returns (publication: Publication)
      requires results.Some? && checkedParsers.Some? && checkedLocations.Some?
      requires AllValid(results.value)
      requires SizesReadable(results.value, env.sizeBounds)
      modifies this`searchBarEnabled, Objects(results.value)
      ensures AllValid(results.value)
      ensures searchBarEnabled
      ensures publication == PublishStep(results.value, CurrentFilter(), env)
    {
      var visible := ApplyFilters(results.value, env.sizeBounds, CurrentFilter());
      var filesFound, emailsFound := HeaderFlags(env.indexIsEmail);
      searchBarEnabled := true;
      publication := Publication(visible, filesFound, emailsFound);
    }

    /** One pass over a drained set of events. */
    method RunPass(events: set<GuiEvent>, env: Collaborators) returns (report: PassReport)
      requires Valid()
      requires Search in events ==> query.Some?
      requires BackendValid(query, events, env)
      requires PassSizesReadable(State(), query, events, env)
      modifies this, PassObjects(events, env)
      ensures Valid()
      ensures pending == old(pending) && query == old(query)
      ensures (State(), report) == PassSpec(old(State()), old(query), events, env)
      ensures searchBarEnabled == (report.ReenablesSearchBar() || old(searchBarEnabled))
    {
      ghost var searched := SearchStep(results, query, events, env).0;
      assert searched.Some? ==> AllValid(searched.value);
      var error := RunSearch(events, env);
      RefreshFilters(events, env);
      if results.None? {
        return PassReport(error, None);
      }
      var publication := Publish(env);
      report := PassReport(error, Some(publication));
    }

    /** The worker loop's body: take the pending events, and run a pass on
        them when there were any. */
    method ThreadLoop(env: Collaborators) returns (report: Option<PassReport>)
      requires Valid()
      requires BackendValid(query, pending, env)
      requires PassSizesReadable(State(), query, pending, env)
      modifies this, PassObjects(pending, env)
      ensures Valid()
      ensures pending == {} && query == old(query)
      ensures old(pending) == {} ==>
                report.None? && State() == old(State()) && searchBarEnabled == old(searchBarEnabled)
      ensures old(pending) != {} ==>
                report.Some? &&
                (State(), report.value) == PassSpec(old(State()), old(query), old(pending), env) &&
                searchBarEnabled == (report.value.ReenablesSearchBar() || old(searchBarEnabled))
    {
      ghost var events := pending;
      ghost var outcome := if query.Some? then Some(env.backend(query.value)) else None;
      assert Search in events && outcome.Some? && outcome.value.Found? ==> AllValid(outcome.value.docs);
      var drained := TryDrain();
      assert Search in events && outcome.Some? && outcome.value.Found? ==> AllValid(outcome.value.docs);
      if drained.None? {
        return None;
      }
      var r := RunPass(drained.value, env);
      report := Some(r);
    }
  }

  /** Bursts collapse: repeated kinds are pending once, and of several
      queries submitted before the worker wakes only the last is kept. */
  method CoalescingScenario() returns (first: Option<set<GuiEvent>>, second: Option<set<GuiEvent>>, kept: Option<string>)
    ensures first == Some({Search, Size, Type})
    ensures second.None?
    ensures kept == Some("c")
  {
    var q := new SearchQueue();
    q.SubmitSearch("a");
    q.FilterChanged(Size);
    q.SubmitSearch("b");
    q.FilterChanged(Type);
    q.FilterChanged(Size);
    q.SubmitSearch("c");
    assert q.pending == {Search, Size, Type};
    first := q.TryDrain();
    second := q.TryDrain();
    kept := q.query;
  }
}
