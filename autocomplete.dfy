/**
 * The searchable selector (components/AutocompleteSelect.tsx). In static mode it filters a
 * given list on the client; in fetch mode it shows whatever the last completed fetch
 * returned. The component's state and its two effects are modelled as a pure transition
 * function `Step` over discrete events (the 500 ms debounce is a pending timer that
 * fires as an event; a fetch is a request that is answered as an event), and the class
 * `Selector` performs the same updates field by field and is proved against `Step`.
 */
module Autocomplete {
  import opened Wrappers
  import opened Js
  import opened Text
  import opened Sequences

  const FetchErrorMessage := "Erreur lors du chargement des données"

  /** One key's value matches when it is a non-blank string containing the query, both lower-cased. */
  predicate KeyMatches(value: Json, query: string) {
    value.JStr? && !IsBlank(value.s) && Contains(Lower(value.s), Lower(query))
  }

  /** Some search key's value matches; `field(item, k)` reads property `k` of the item. */
  predicate SomeKeyMatches<T>(item: T, keys: seq<string>, field: (T, string) -> Json, query: string) {
    exists k :: k in keys && KeyMatches(field(item, k), query)
  }

  /** The static-list filter: the items some key of which matches, in their order. */
  function FilterItems<T>(items: seq<T>, keys: seq<string>, field: (T, string) -> Json, query: string): (r: seq<T>)
    ensures |r| <= |items|
    ensures forall x :: x in r ==> x in items && SomeKeyMatches(x, keys, field, query)
    ensures forall x :: x in items && SomeKeyMatches(x, keys, field, query) ==> x in r
    ensures forall x :: x in items ==> multiset(r)[x] == if SomeKeyMatches(x, keys, field, query) then multiset(items)[x] else 0
  {
    if items == [] then []
    else
      assert items == [items[0]] + items[1..];
      (if SomeKeyMatches(items[0], keys, field, query) then [items[0]] else [])
      + FilterItems(items[1..], keys, field, query)
  }

  /** The filter keeps the order of `items`. */
  lemma {:induction false} FilterItemsKeepsOrder<T>(items: seq<T>, keys: seq<string>, field: (T, string) -> Json, query: string)
    ensures IsSubsequence(FilterItems(items, keys, field, query), items)
  {
    if items != [] {
      FilterItemsKeepsOrder(items[1..], keys, field, query);
      var rest := FilterItems(items[1..], keys, field, query);
      var keep := SomeKeyMatches(items[0], keys, field, query);
      assert items == [items[0]] + items[1..];
      assert FilterItems(items, keys, field, query) == if keep then [items[0]] + rest else rest;
      SubsequenceCons(items[0], rest, items[1..], keep);
    }
  }

  /** The component's props that the engine reads. `fetchMode` is "a fetchData prop was given". */
  datatype Props<!T> = Props(
    fetchMode: bool,
    data: Option<seq<T>>,
    searchKeys: Option<seq<string>>,
    field: (T, string) -> Json,
    idOf: T -> Json,
    externalLoading: bool)

  /**
   * The component state, plus the pending debounce timer (the query its closure captured)
   * and, as oracle bookkeeping, the terms of fetches not yet answered and of every fetch issued.
   */
  datatype State<T> = State(
    isOpen: bool,
    searchQuery: string,
    fetchedData: seq<T>,
    internalLoading: bool,
    internalError: Option<string>,
    timer: Option<string>,
    inFlight: seq<string>,
    requested: seq<string>)

  /**
   * The events: the handlers, the timer firing, the i-th pending fetch answering (None: it
   * threw), and a re-render of the parent, which hands down a new `fetchData` function.
   */
  datatype Event<T> = Open | Close | Type(query: string) | TimerFire | Respond(index: nat, outcome: Option<seq<T>>)
                    | Select(item: T) | Clear | ParentRender

  function Initial<T>(): State<T> {
    State(false, "", [], false, None, None, [], [])
  }

  /** `filteredData`: the list the selector displays. */
  function FilteredData<T>(p: Props<T>, s: State<T>): seq<T> {
    if p.fetchMode then s.fetchedData
    else if p.data.None? then []
    else if IsBlank(s.searchQuery) then p.data.value
    else if p.searchKeys.None? then p.data.value
    else FilterItems(p.data.value, p.searchKeys.value, p.field, s.searchQuery)
  }

  /** `isLoading`: either the parent's flag or the selector's own. */
  predicate IsLoading<T>(p: Props<T>, s: State<T>) {
    p.externalLoading || s.internalLoading
  }

  /** A row is highlighted when its id is strictly equal to the selected value's id (undefined when nothing is selected). */
  predicate Highlighted<T>(p: Props<T>, value: Option<T>, item: T) {
    (if value.Some? then p.idOf(value.value) else JUndef) == p.idOf(item)
  }

  /** The synchronous part of `fetchDataCallback`: loading on, error cleared, request issued. */
  function StartFetch<T>(p: Props<T>, s: State<T>, term: string): State<T> {
    if !p.fetchMode then s
    else s.(internalLoading := true, internalError := None,
            inFlight := s.inFlight + [term], requested := s.requested + [term])
  }

  /**
   * The two effects after a render, given which of their dependencies changed. The debounce
   * effect clears its previous timer and, when open in fetch mode, schedules one for the
   * current query; the initial-fetch effect fetches "" when open in fetch mode with nothing fetched.
   */
  function Effects<T>(p: Props<T>, s: State<T>, queryChanged: bool, openChanged: bool,
                      lengthChanged: bool, callbackChanged: bool): State<T>
  {
    var s1 := if queryChanged || openChanged || callbackChanged
              then s.(timer := if p.fetchMode && s.isOpen then Some(s.searchQuery) else None)
              else s;
    if (openChanged || lengthChanged || callbackChanged) && p.fetchMode && s1.isOpen && |s1.fetchedData| == 0
    then StartFetch(p, s1, "")
    else s1
  }

  function RemoveAt(xs: seq<string>, i: nat): seq<string>
    requires i < |xs|
  {
    xs[..i] + xs[i + 1..]
  }

  /** One event and the render and effects that follow it. */
  function Step<T>(p: Props<T>, s: State<T>, e: Event<T>): State<T> {
    match e
    case Open =>
      if IsLoading(p, s) then s
      else Effects(p, s.(isOpen := true), false, !s.isOpen, false, false)
    case Close =>
      Effects(p, s.(isOpen := false), false, s.isOpen, false, false)
    case Type(q) =>
      Effects(p, s.(searchQuery := q), q != s.searchQuery, false, false, false)
    case TimerFire =>
      if s.timer.None? then s else StartFetch(p, s.(timer := None), s.timer.value)
    case Respond(i, outcome) =>
      if i >= |s.inFlight| then s
      else
        var s1 := match outcome
          case Some(rs) => s.(fetchedData := rs, internalLoading := false, inFlight := RemoveAt(s.inFlight, i))
          case None => s.(fetchedData := [], internalError := Some(FetchErrorMessage), internalLoading := false,
                          inFlight := RemoveAt(s.inFlight, i));
        Effects(p, s1, false, false, |s1.fetchedData| != |s.fetchedData|, false)
    case Select(_) =>
      Effects(p, s.(isOpen := false, searchQuery := ""), s.searchQuery != "", s.isOpen, false, false)
    case Clear =>
      Effects(p, s.(searchQuery := ""), s.searchQuery != "", false, false, false)
    case ParentRender =>
      Effects(p, s, false, false, false, p.fetchMode)
  }

  /** What the event hands to `onSelect`, if it calls it. */
  function Emitted<T>(e: Event<T>): Option<Option<T>> {
    match e
    case Select(item) => Some(Some(item))
    case Clear => Some(None)
    case _ => None
  }

  /** A sequence of events. */
  function Run<T>(p: Props<T>, s: State<T>, es: seq<Event<T>>): State<T>
    decreases |es|
  {
    if es == [] then s else Run(p, Step(p, s, es[0]), es[1..])
  }

  /** A pending timer exists only while open in fetch mode, and it carries the current query. */
  predicate TimerForLatestQuery<T>(p: Props<T>, s: State<T>) {
    s.timer.Some? ==> p.fetchMode && s.isOpen && s.timer.value == s.searchQuery
  }

  lemma StepKeepsTimerForLatestQuery<T>(p: Props<T>, s: State<T>, e: Event<T>)
    requires TimerForLatestQuery(p, s)
    ensures TimerForLatestQuery(p, Step(p, s, e))
  {
  }

  /** In every reachable state only the timer of the latest query can be pending. */
  lemma {:induction false} RunKeepsTimerForLatestQuery<T>(p: Props<T>, s: State<T>, es: seq<Event<T>>)
    requires TimerForLatestQuery(p, s)
    ensures TimerForLatestQuery(p, Run(p, s, es))
    decreases |es|
  {
    if es != [] {
      StepKeepsTimerForLatestQuery(p, s, es[0]);
      RunKeepsTimerForLatestQuery(p, Step(p, s, es[0]), es[1..]);
    }
  }

  /** The initial state satisfies the timer invariant, so every reachable state does. */
  lemma ReachableTimerForLatestQuery<T>(p: Props<T>, es: seq<Event<T>>)
    ensures TimerForLatestQuery(p, Run(p, Initial(), es))
  {
    RunKeepsTimerForLatestQuery(p, Initial(), es);
  }

  /** When the timer fires it fetches the query currently typed, and nothing else. */
  lemma TimerFetchesCurrentQuery<T>(p: Props<T>, s: State<T>)
    requires TimerForLatestQuery(p, s) && s.timer.Some?
    ensures Step(p, s, TimerFire).requested == s.requested + [s.searchQuery]
    ensures Step(p, s, TimerFire).timer.None?
  {
  }

  function Keystrokes<T>(qs: seq<string>): (es: seq<Event<T>>)
    ensures |es| == |qs|
  {
    seq(|qs|, i requires 0 <= i < |qs| => Type(qs[i]))
  }

  /**
   * Typing any number of queries while open in fetch mode issues no fetch (only a full
   * quiet period does): afterwards the query is the last one typed and any pending timer is its.
   */
  lemma {:induction false} TypingIssuesNoFetch<T>(p: Props<T>, s: State<T>, qs: seq<string>)
    requires p.fetchMode && s.isOpen && TimerForLatestQuery(p, s)
    ensures var t := Run(p, s, Keystrokes<T>(qs));
      t.requested == s.requested && t.inFlight == s.inFlight && t.isOpen && TimerForLatestQuery(p, t)
      && t.fetchedData == s.fetchedData
      && t.searchQuery == (if qs == [] then s.searchQuery else qs[|qs| - 1])
    decreases |qs|
  {
    if qs != [] {
      var s1 := Step(p, s, Type(qs[0]));
      assert Keystrokes<T>(qs)[1..] == Keystrokes<T>(qs[1..]);
      TypingIssuesNoFetch(p, s1, qs[1..]);
    }
  }

  /** Typing a new query while open in fetch mode replaces the pending timer by one for that query. */
  lemma TypingRestartsDebounce<T>(p: Props<T>, s: State<T>, q: string)
    requires p.fetchMode && s.isOpen && q != s.searchQuery
    ensures Step(p, s, Type(q)).timer == Some(q)
    ensures Step(p, s, Type(q)).requested == s.requested
  {
  }

  /** Closing cancels any pending timer. */
  lemma CloseCancelsTimer<T>(p: Props<T>, s: State<T>)
    requires TimerForLatestQuery(p, s)
    ensures !Step(p, s, Close).isOpen && Step(p, s, Close).timer.None?
    ensures Step(p, s, Close).requested == s.requested
  {
  }

  /** Opening in fetch mode with nothing fetched fetches "" at once and schedules the debounce for the query. */
  lemma OpenFetchesDefaultWhenEmpty<T>(p: Props<T>, s: State<T>)
    requires p.fetchMode && !s.isOpen && !IsLoading(p, s) && s.fetchedData == []
    ensures var t := Step(p, s, Open);
      t.isOpen && t.requested == s.requested + [""] && t.internalLoading && t.internalError.None?
      && t.timer == Some(s.searchQuery)
  {
  }

  /** The selector cannot be opened while loading. */
  lemma OpenIgnoredWhileLoading<T>(p: Props<T>, s: State<T>)
    requires IsLoading(p, s)
    ensures Step(p, s, Open) == s
  {
  }

  /** A successful answer replaces the fetched list wholesale; loading is over unless the list just became empty while open. */
  lemma RespondOkReplaces<T>(p: Props<T>, s: State<T>, i: nat, rs: seq<T>)
    requires i < |s.inFlight|
    ensures var t := Step(p, s, Respond(i, Some(rs)));
      t.fetchedData == rs && t.searchQuery == s.searchQuery
      && (!(p.fetchMode && s.isOpen && rs == [] && s.fetchedData != []) ==> !t.internalLoading && t.internalError == s.internalError)
  {
  }

  /** A failed answer empties the list and sets the error message. */
  lemma RespondErrEmpties<T>(p: Props<T>, s: State<T>, i: nat)
    requires i < |s.inFlight|
    ensures var t := Step(p, s, Respond(i, None));
      t.fetchedData == []
      && (!(p.fetchMode && s.isOpen && s.fetchedData != []) ==> !t.internalLoading && t.internalError == Some(FetchErrorMessage))
  {
  }

  /**
   * An answer that empties a non-empty list while open (a search with no hits, or a failure)
   * makes the initial-fetch effect run again: a fetch for "" is issued at once.
   */
  lemma EmptiedListRefetchesDefault<T>(p: Props<T>, s: State<T>, i: nat, outcome: Option<seq<T>>)
    requires p.fetchMode && s.isOpen && s.fetchedData != [] && i < |s.inFlight|
    requires outcome.None? || outcome == Some([])
    ensures Step(p, s, Respond(i, outcome)).requested == s.requested + [""]
  {
  }

  /** Any answer is committed, whatever query is current: there is no stale-response guard. */
  lemma StaleAnswerCommitted<T>(p: Props<T>, s: State<T>, i: nat, rs: seq<T>)
    requires i < |s.inFlight| && s.inFlight[i] != s.searchQuery
    ensures Step(p, s, Respond(i, Some(rs))).fetchedData == rs
  {
  }

  /** Select hands the item to onSelect, closes the list, resets the query and leaves no timer. */
  lemma SelectClosesAndResets<T>(p: Props<T>, s: State<T>, item: T)
    requires TimerForLatestQuery(p, s)
    ensures var t := Step(p, s, Select(item));
      !t.isOpen && t.searchQuery == "" && t.timer.None? && t.requested == s.requested
    ensures Emitted(Select(item)) == Some(Some(item))
  {
  }

  /** Clear hands null to onSelect and resets the query, leaving open or closed as it was. */
  lemma ClearResetsQuery<T>(p: Props<T>, s: State<T>)
    ensures var t := Step(p, s, Clear); t.searchQuery == "" && t.isOpen == s.isOpen
    ensures Emitted<T>(Clear) == Some(None)
  {
  }

  /** In fetch mode the list shown is the fetched list, whatever the query. */
  lemma FetchModeShowsFetched<T>(p: Props<T>, s: State<T>, q: string)
    requires p.fetchMode
    ensures FilteredData(p, s) == FilteredData(p, s.(searchQuery := q)) == s.fetchedData
  {
  }

  /**
   * In static mode: no data gives nothing; a blank query or no keys gives the data; otherwise
   * an order-preserving sublist of exactly the items some key of which matches.
   */
  lemma StaticFilter<T>(p: Props<T>, s: State<T>)
    requires !p.fetchMode
    ensures p.data.None? ==> FilteredData(p, s) == []
    ensures p.data.Some? && (IsBlank(s.searchQuery) || p.searchKeys.None?) ==> FilteredData(p, s) == p.data.value
    ensures p.data.Some? && !IsBlank(s.searchQuery) && p.searchKeys.Some? ==>
      IsSubsequence(FilteredData(p, s), p.data.value)
      && (forall x :: x in FilteredData(p, s) <==>
           x in p.data.value && SomeKeyMatches(x, p.searchKeys.value, p.field, s.searchQuery))
      && forall x :: x in p.data.value ==>
           multiset(FilteredData(p, s))[x]
           == (if SomeKeyMatches(x, p.searchKeys.value, p.field, s.searchQuery) then multiset(p.data.value)[x] else 0)
  {
    if p.data.Some? && p.searchKeys.Some? {
      FilterItemsKeepsOrder(p.data.value, p.searchKeys.value, p.field, s.searchQuery);
    }
  }

  lemma {:induction false} FilterWithoutKeys<T>(items: seq<T>, field: (T, string) -> Json, query: string)
    ensures FilterItems(items, [], field, query) == []
  {
    if items != [] {
      FilterWithoutKeys(items[1..], field, query);
    }
  }

  /** An empty key list is not "no keys": with a non-blank query it filters everything out. */
  lemma EmptyKeysFilterAll<T>(p: Props<T>, s: State<T>)
    requires !p.fetchMode && p.data.Some? && p.searchKeys == Some([]) && !IsBlank(s.searchQuery)
    ensures FilteredData(p, s) == []
  {
    FilterWithoutKeys(p.data.value, p.field, s.searchQuery);
  }

  /** A string value matches a query it contains, whatever the case of either. */
  lemma {:induction false} KeyMatchesIgnoresCase(v: string, q: string)
    ensures KeyMatches(JStr(v), q) <==> KeyMatches(JStr(Lower(v)), Lower(q))
  {
    LowerIdempotent(v);
    LowerIdempotent(q);
    LowerKeepsBlank(v);
  }

  /** When nothing is selected, exactly the items without an id are highlighted (undefined === undefined). */
  lemma HighlightWithoutValue<T>(p: Props<T>, item: T)
    ensures Highlighted(p, None, item) <==> p.idOf(item) == JUndef
  {
  }

  /** The engine as the component holds it: its state fields, updated by one method per event. */
  class Selector<T> {
    const props: Props<T>
    var isOpen: bool
    var searchQuery: string
    var fetchedData: seq<T>
    var internalLoading: bool
    var internalError: Option<string>
    var timer: Option<string>
    var inFlight: seq<string>
    var requested: seq<string>

    function Snapshot(): State<T>
      reads this
    {
      State(isOpen, searchQuery, fetchedData, internalLoading, internalError, timer, inFlight, requested)
    }

    constructor (props: Props<T>)
      ensures this.props == props && Snapshot() == Initial()
    {
      this.props := props;
      isOpen, searchQuery, fetchedData := false, "", [];
      internalLoading, internalError := false, None;
      timer, inFlight, requested := None, [], [];
    }

    function Displayed(): seq<T>
      reads this
    {
      FilteredData(props, Snapshot())
    }

    method FetchDataCallback(term: string)
      modifies this
      ensures Snapshot() == StartFetch(props, old(Snapshot()), term)
    {
      if props.fetchMode {
        internalLoading := true;
        internalError := None;
        inFlight := inFlight + [term];
        requested := requested + [term];
      }
    }

    method RunEffects(queryChanged: bool, openChanged: bool, lengthChanged: bool, callbackChanged: bool)
      modifies this
      ensures Snapshot() == Effects(props, old(Snapshot()), queryChanged, openChanged, lengthChanged, callbackChanged)
    {
      if queryChanged || openChanged || callbackChanged {
        timer := None;
        if props.fetchMode && isOpen {
          timer := Some(searchQuery);
        }
      }
      if (openChanged || lengthChanged || callbackChanged) && props.fetchMode && isOpen && |fetchedData| == 0 {
        FetchDataCallback("");
      }
    }

    method Open()
      modifies this
      ensures Snapshot() == Step(props, old(Snapshot()), Event.Open)
    {
      if !(props.externalLoading || internalLoading) {
        var wasOpen := isOpen;
        isOpen := true;
        RunEffects(false, !wasOpen, false, false);
      }
    }

    method Close()
      modifies this
      ensures Snapshot() == Step(props, old(Snapshot()), Event.Close)
    {
      var wasOpen := isOpen;
      isOpen := false;
      RunEffects(false, wasOpen, false, false);
    }

    method Type(q: string)
      modifies this
      ensures Snapshot() == Step(props, old(Snapshot()), Event.Type(q))
    {
      var changed := q != searchQuery;
      searchQuery := q;
      RunEffects(changed, false, false, false);
    }

    method TimerFire()
      modifies this
      ensures Snapshot() == Step(props, old(Snapshot()), Event.TimerFire)
    {
      if timer.Some? {
        var q := timer.value;
        timer := None;
        FetchDataCallback(q);
      }
    }

    method Respond(i: nat, outcome: Option<seq<T>>)
      modifies this
      ensures Snapshot() == Step(props, old(Snapshot()), Event.Respond(i, outcome))
    {
      if i < |inFlight| {
        var oldLength := |fetchedData|;
        inFlight := RemoveAt(inFlight, i);
        match outcome {
          case Some(rs) =>
            fetchedData := rs;
          case None =>
            fetchedData := [];
            internalError := Some(FetchErrorMessage);
        }
        internalLoading := false;
        RunEffects(false, false, |fetchedData| != oldLength, false);
      }
    }

    method Select(item: T) returns (selected: Option<T>)
      modifies this
      ensures Snapshot() == Step(props, old(Snapshot()), Event.Select(item))
      ensures Emitted(Event.Select(item)) == Some(selected)
    {
      selected := Some(item);
      var wasOpen, queryChanged := isOpen, searchQuery != "";
      isOpen := false;
      searchQuery := "";
      RunEffects(queryChanged, wasOpen, false, false);
    }

    method Clear() returns (selected: Option<T>)
      modifies this
      ensures Snapshot() == Step(props, old(Snapshot()), Event.Clear)
      ensures Emitted(Event<T>.Clear) == Some(selected)
    {
      selected := None;
      var queryChanged := searchQuery != "";
      searchQuery := "";
      RunEffects(queryChanged, false, false, false);
    }

    method ParentRender()
      modifies this
      ensures Snapshot() == Step(props, old(Snapshot()), Event.ParentRender)
    {
      RunEffects(false, false, false, props.fetchMode);
    }
  }
}
