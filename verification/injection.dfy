/** Delivering a generated workflow onto the n8n canvas.  When a canvas is on
    the page the workflow is pasted (or dropped) onto it at once; otherwise a
    per-host pending record is stored, the page navigates to an editor
    route, and the record is resumed on arrival.

    The DOM is an oracle (`Page`): which selectors resolve, whether a
    `DataTransfer` can be built, and which targets' `dispatchEvent` returns
    true.  Storage is a map from key to record; `chrome.storage` writes are
    taken to land before the next step.  Waiting for the canvas is a boolean
    oracle. */
module Injection {
  import opened Wrappers
  import opened Strings
  import opened Workflows
  import opened Routes
  import opened Session

  // ---------------------------------------------------------------------
  // The canvas probe
  // ---------------------------------------------------------------------

  /** An element of the page, known only by its identity. */
  datatype Element = Element(id: nat)

  /** `findCanvasTarget` tries these selectors in this order. */
  const CanvasSelectors: seq<string> := [
    "[data-test-id=\"canvas\"]", "[data-test-id*=\"canvas\"]", ".workflow-canvas", ".canvas", "svg"
  ]

  /** The page as the injection code sees it.  `query` maps a selector to
      what `document.querySelector` returns for it (absent: `null`);
      `transferSupported` says that `new DataTransfer()` and its first
      `setData` do not throw; `accepting` holds the targets whose
      `dispatchEvent` of a paste event returns true. */
  datatype Page = Page(query: map<string, Element>, transferSupported: bool, accepting: set<Target>)

  /** The first selector of `sels` that resolves. */
  function FirstMatch(sels: seq<string>, query: map<string, Element>): (r: Option<Element>)
    ensures r.None? <==> forall i :: 0 <= i < |sels| ==> sels[i] !in query
    ensures r.Some? ==> exists i :: 0 <= i < |sels| && sels[i] in query && query[sels[i]] == r.value
                                    && forall j :: 0 <= j < i ==> sels[j] !in query
  {
    if sels == [] then None
    else if sels[0] in query then Some(query[sels[0]])
    else
      var r := FirstMatch(sels[1..], query);
      assert forall i :: 1 <= i < |sels| ==> sels[1..][i - 1] == sels[i];
      if r.Some? then
        var i :| 0 <= i < |sels[1..]| && sels[1..][i] in query && query[sels[1..][i]] == r.value
                 && forall j :: 0 <= j < i ==> sels[1..][j] !in query;
        assert forall j :: 0 <= j < i + 1 ==> sels[j] !in query by {
          forall j | 0 <= j < i + 1 ensures sels[j] !in query {
            if j > 0 {
              assert sels[j] == sels[1..][j - 1];
            }
          }
        }
        r
      else r
  }

  /** `findCanvasTarget()`: the element of the first selector, in priority
      order, that resolves, or `None` when none does. */
  function FindCanvasTarget(query: map<string, Element>): (r: Option<Element>)
    ensures r.None? <==> forall i :: 0 <= i < |CanvasSelectors| ==> CanvasSelectors[i] !in query
    ensures r.Some? ==>
      exists i :: 0 <= i < |CanvasSelectors| && CanvasSelectors[i] in query && query[CanvasSelectors[i]] == r.value
                  && forall j :: 0 <= j < i ==> CanvasSelectors[j] !in query
  {
    FirstMatch(CanvasSelectors, query)
  }

  /** An exact canvas marker wins over every weaker probe. */
  lemma ExactCanvasWins(query: map<string, Element>)
    requires CanvasSelectors[0] in query
    ensures FindCanvasTarget(query) == Some(query[CanvasSelectors[0]])
  {
  }

  // ---------------------------------------------------------------------
  // The two delivery strategies
  // ---------------------------------------------------------------------

  datatype Target = CanvasTarget(e: Element) | Body | Document | Window

  datatype EventKind = Paste | DragEnter | DragOver | Drop

  /** The clipboard payload: the serialised workflow under three MIME types. */
  datatype Transfer = Transfer(entries: seq<(string, string)>)

  datatype Dispatch = Dispatch(kind: EventKind, target: Target, data: Transfer)

  function TransferOf(json: string): (t: Transfer)
    ensures |t.entries| == 3
    ensures forall i :: 0 <= i < 3 ==> t.entries[i].1 == json
    ensures t.entries[0].0 == "text/plain" && t.entries[1].0 == "text" && t.entries[2].0 == "application/json"
  {
    Transfer([("text/plain", json), ("text", json), ("application/json", json)])
  }

  /** `tryPasteImport`: a paste event at the canvas (or the body); when that
      dispatch returns false, further paste events at the document and the
      window.  The answer is true whenever the set-up did not throw,
      whatever the dispatches returned. */
  function TryPasteImport(page: Page, json: string): (r: (bool, seq<Dispatch>))
    ensures r.0 <==> page.transferSupported
    ensures !r.0 ==> r.1 == []
    ensures r.0 ==> |r.1| >= 1 && r.1[0].kind == Paste && r.1[0].data == TransferOf(json)
    ensures r.0 ==> r.1[0].target == (match FindCanvasTarget(page.query)
                                       case Some(e) => CanvasTarget(e)
                                       case None => Body)
    ensures r.0 ==> (|r.1| == 1 <==> r.1[0].target in page.accepting)
    ensures forall i :: 0 <= i < |r.1| ==> r.1[i].kind == Paste
  {
    if !page.transferSupported then (false, [])
    else
      var dt := TransferOf(json);
      var target := match FindCanvasTarget(page.query)
                    case Some(e) => CanvasTarget(e)
                    case None => Body;
      var first := Dispatch(Paste, target, dt);
      if target in page.accepting then (true, [first])
      else (true, [first, Dispatch(Paste, Document, dt), Dispatch(Paste, Window, dt)])
  }

  /** `tryDropImport`: drag events at the canvas; false with nothing
      dispatched when there is no canvas. */
  function TryDropImport(page: Page, json: string): (r: (bool, seq<Dispatch>))
    ensures FindCanvasTarget(page.query).None? ==> r == (false, [])
    ensures r.0 <==> FindCanvasTarget(page.query).Some? && page.transferSupported
    ensures r.0 ==> |r.1| == 3 && r.1[0].kind == DragEnter && r.1[1].kind == DragOver && r.1[2].kind == Drop
    ensures r.0 ==> forall i :: 0 <= i < 3 ==>
      r.1[i].target == CanvasTarget(FindCanvasTarget(page.query).value) && r.1[i].data == TransferOf(json)
    ensures !r.0 ==> r.1 == []
  {
    match FindCanvasTarget(page.query)
    case None => (false, [])
    case Some(e) =>
      if !page.transferSupported then (false, [])
      else
        var dt := TransferOf(json);
        (true, [Dispatch(DragEnter, CanvasTarget(e), dt), Dispatch(DragOver, CanvasTarget(e), dt),
                Dispatch(Drop, CanvasTarget(e), dt)])
  }

  /** `injectWorkflowToCanvas`: paste first, drop only when paste answered
      false; true iff one of them answered true.  The trace is every event
      dispatched, in order. */
  function InjectWorkflowToCanvas(page: Page, w: Workflow): (r: (bool, seq<Dispatch>))
    ensures r.0 <==> TryPasteImport(page, w.json).0 || TryDropImport(page, w.json).0
    ensures TryPasteImport(page, w.json).0 ==> r == TryPasteImport(page, w.json)
    ensures !TryPasteImport(page, w.json).0 ==> r == TryDropImport(page, w.json)
  {
    var paste := TryPasteImport(page, w.json);
    if paste.0 then paste
    else
      var drop := TryDropImport(page, w.json);
      assert paste.1 + drop.1 == drop.1;
      (drop.0, paste.1 + drop.1)
  }

  /** Both strategies fail on the same set-up step, so the drop fallback
      never rescues a failed paste: injection succeeds exactly when a
      `DataTransfer` can be built, and every successful injection starts
      with a paste. */
  lemma InjectionOutcome(page: Page, w: Workflow)
    ensures InjectWorkflowToCanvas(page, w).0 <==> page.transferSupported
    ensures InjectWorkflowToCanvas(page, w).0 ==> InjectWorkflowToCanvas(page, w).1[0].kind == Paste
    ensures !InjectWorkflowToCanvas(page, w).0 ==> InjectWorkflowToCanvas(page, w).1 == []
  {
  }

  // ---------------------------------------------------------------------
  // The pending record
  // ---------------------------------------------------------------------

  /** The stored `idx`: a number, or a value `Number` maps to NaN. */
  datatype IdxField = Num(n: int) | NonNumeric

  /** The stored `routes`: an array of URLs or anything else. */
  datatype RoutesField = RouteList(routes: seq<string>) | NotAList

  datatype Pending = Pending(workflow: Option<Workflow>, ts: int, idx: IdxField, routes: RoutesField)

  type Store = map<string, Pending>

  /** Where the content script runs: the parsed `location.href` (`None` when
      `new URL` throws) and `location.pathname` / `location.hash`. */
  datatype Here = Here(url: Option<Url>, pathname: string, hash: string)

  function HostOf(here: Here): Option<string> {
    match here.url
    case None => None
    case Some(u) => Some(u.host)
  }

  function PendingKeyAt(here: Here): string {
    PendingKey(HostOf(here))
  }

  /** A record whose index points into its own non-empty route list. */
  predicate WellFormed(p: Pending) {
    p.routes.RouteList? && |p.routes.routes| > 0 && p.idx.Num? && 0 <= p.idx.n < |p.routes.routes|
  }

  predicate StoreInvariant(store: Store) {
    forall k :: k in store ==> WellFormed(store[k])
  }

  /** The routes a record navigates through: its own list, or the candidates
      rebuilt for the current page when `routes` is not an array. */
  function RoutesOf(p: Pending, here: Here): seq<string> {
    match p.routes
    case RouteList(rs) => rs
    case NotAList => BuildRouteCandidates(here.url)
  }

  /** `Math.min(Math.max(Number(idx) || 0, 0), n - 1)` */
  function ClampIndex(idx: IdxField, n: nat): (r: int)
    ensures n > 0 ==> 0 <= r < n
    ensures n > 0 && idx.Num? && 0 <= idx.n < n ==> r == idx.n
    ensures n > 0 && (idx.NonNumeric? || idx.n <= 0) ==> r == 0
    ensures n > 0 && idx.Num? && idx.n >= n ==> r == n - 1
    ensures n == 0 ==> r == -1
  {
    var raw := if idx.Num? then idx.n else 0;
    var lo := if raw < 0 then 0 else raw;
    if lo < n - 1 then lo else n - 1
  }

  /** The navigation target; `location.href = undefined` loads the relative
      URL `undefined`. */
  const UndefinedHref := "undefined"

  /** `navigatePendingRoute`'s effect on one record: the destination and the
      record written back.  With no routes, `routes[-1]` is `undefined` and
      `0 % 0` is NaN. */
  function Advance(p: Pending, here: Here): (r: (Pending, string))
    ensures var rs := RoutesOf(p, here);
      && r.0 == p.(idx := r.0.idx)
      && (|rs| > 0 ==> r.0.idx.Num? && 0 <= r.0.idx.n < |rs| && r.1 == rs[ClampIndex(p.idx, |rs|)]
                       && r.0.idx.n == (ClampIndex(p.idx, |rs|) + 1) % |rs|)
      && (|rs| == 0 ==> r == (p.(idx := NonNumeric), UndefinedHref))
  {
    var rs := RoutesOf(p, here);
    var n := |rs|;
    if n == 0 then (p.(idx := NonNumeric), UndefinedHref)
    else
      var i := ClampIndex(p.idx, n);
      (p.(idx := Num((i + 1) % n)), rs[i])
  }

  /** `navigateToPendingRoute(pending)`: store the advanced record under the
      page's pending key and navigate. */
  function NavigateToPendingRoute(store: Store, here: Here, p: Pending): (r: (Store, string))
    ensures r.0 == store[PendingKeyAt(here) := Advance(p, here).0]
    ensures r.1 == Advance(p, here).1
    ensures p.routes.RouteList? && |p.routes.routes| > 0 ==> WellFormed(r.0[PendingKeyAt(here)])
    ensures StoreInvariant(store) && p.routes.RouteList? && |p.routes.routes| > 0 ==> StoreInvariant(r.0)
  {
    var a := Advance(p, here);
    (store[PendingKeyAt(here) := a.0], a.1)
  }

  /** The destinations of `m` successive navigations of a record. */
  function Visits(p: Pending, here: Here, m: nat): seq<string>
    decreases m
  {
    if m == 0 then []
    else
      var a := Advance(p, here);
      [a.1] + Visits(a.0, here, m - 1)
  }

  /** `x` taken back into `[0, n)` once: enough for indices below `2n`. */
  function Wrap(x: int, n: int): int {
    if x < n then x else x - n
  }

  /** The stored index moves one step along the list, back to 0 after the last. */
  lemma NextIndex(i: int, n: int)
    requires 0 <= i < n
    ensures (i + 1) % n == Wrap(i + 1, n)
  {
  }

  /** Up to `|routes|` successive navigations walk the route list
      cyclically, starting at the stored index. */
  lemma {:induction false} VisitsCycle(p: Pending, here: Here, m: nat)
    requires WellFormed(p) && m <= |p.routes.routes|
    ensures |Visits(p, here, m)| == m
    ensures forall t :: 0 <= t < m ==>
      Visits(p, here, m)[t] == p.routes.routes[Wrap(p.idx.n + t, |p.routes.routes|)]
    decreases m
  {
    if m > 0 {
      var rs := p.routes.routes;
      var n := |rs|;
      var a := Advance(p, here);
      NextIndex(p.idx.n, n);
      VisitsCycle(a.0, here, m - 1);
      var v := Visits(p, here, m);
      forall t | 0 <= t < m ensures v[t] == rs[Wrap(p.idx.n + t, n)] {
        if t > 0 {
          assert v[t] == Visits(a.0, here, m - 1)[t - 1];
        }
      }
    }
  }

  /** As many navigations as there are routes visit every route. */
  lemma EveryRouteVisited(p: Pending, here: Here)
    requires WellFormed(p)
    ensures forall route :: route in p.routes.routes ==> route in Visits(p, here, |p.routes.routes|)
  {
    var rs := p.routes.routes;
    var n := |rs|;
    VisitsCycle(p, here, n);
    forall route | route in rs ensures route in Visits(p, here, n) {
      var j :| 0 <= j < n && rs[j] == route;
      var t := if j >= p.idx.n then j - p.idx.n else j - p.idx.n + n;
      assert Visits(p, here, n)[t] == route;
    }
  }

  // ---------------------------------------------------------------------
  // Scheduling and resuming
  // ---------------------------------------------------------------------

  /** What `ensureCanvasAndInject` answers: `'injected'`, `false` or
      `'scheduled'`. */
  datatype EnsureResult = Injected | NotInjected | Scheduled

  /** `ensureCanvasAndInject(workflow)`: the new store, the answer and the
      navigation started, if any.  `now` is `Date.now()`. */
  function EnsureCanvasAndInject(store: Store, here: Here, page: Page, now: int, w: Workflow)
    : (r: (Store, EnsureResult, Option<string>))
    ensures FindCanvasTarget(page.query).Some? ==>
      && r.0 == store && r.2 == None
      && (r.1 == Injected <==> InjectWorkflowToCanvas(page, w).0)
      && (r.1 == NotInjected <==> !InjectWorkflowToCanvas(page, w).0)
    ensures FindCanvasTarget(page.query).None? ==>
      var cands := BuildRouteCandidates(here.url);
      && r.1 == Scheduled
      && r.0 == store[PendingKeyAt(here) := Pending(Some(w), now, Num(1), RouteList(cands))]
      && r.2 == Some(cands[0])
    ensures StoreInvariant(store) ==> StoreInvariant(r.0)
  {
    if FindCanvasTarget(page.query).Some? then
      var ok := InjectWorkflowToCanvas(page, w).0;
      (store, if ok then Injected else NotInjected, None)
    else
      var cands := BuildRouteCandidates(here.url);
      var pending := Pending(Some(w), now, Num(0), RouteList(cands));
      var stored := store[PendingKeyAt(here) := pending];
      var nav := NavigateToPendingRoute(stored, here, pending);
      assert stored[PendingKeyAt(here) := Advance(pending, here).0]
          == store[PendingKeyAt(here) := Advance(pending, here).0];
      (nav.0, Scheduled, Some(nav.1))
  }

  /** The route test of `consumePendingWorkflow`: `/workflow/` on path plus hash. */
  predicate OnEditor(here: Here) {
    Contains(here.pathname + here.hash, "workflow")
  }

  /** What a resumption did. */
  datatype Resumption = NothingPending | Delivered | NotDelivered | Navigated(dest: string)

  /** `consumePendingWorkflow()`; `canvasReady` is the answer of
      `waitForCanvas`. */
  function ConsumePendingWorkflow(store: Store, here: Here, page: Page, canvasReady: bool)
    : (r: (Store, Resumption))
    ensures var key := PendingKeyAt(here);
      && (key !in store || store[key].workflow.None? ==> r == (store, NothingPending))
      && (r.1 == Delivered <==>
            key in store && store[key].workflow.Some? && OnEditor(here) && canvasReady
            && InjectWorkflowToCanvas(page, store[key].workflow.value).0)
      && (r.1 == Delivered ==> r.0 == store - {key})
      && (r.1 != Delivered ==> key in r.0 || r.0 == store)
      && ((key in store && store[key].workflow.Some? && OnEditor(here) && canvasReady
           && !InjectWorkflowToCanvas(page, store[key].workflow.value).0) ==> r == (store, NotDelivered))
      && (key in store && store[key].workflow.Some? && !(OnEditor(here) && canvasReady) ==> r.1.Navigated?)
      && (r.1.Navigated? ==> key in store && (!OnEditor(here) || !canvasReady)
                             && r.0 == NavigateToPendingRoute(store, here, store[key]).0)
      && (forall k :: k != key ==> (k in r.0 <==> k in store) && (k in store ==> r.0[k] == store[k]))
    ensures StoreInvariant(store) ==> StoreInvariant(r.0)
  {
    var key := PendingKeyAt(here);
    if key !in store || store[key].workflow.None? then (store, NothingPending)
    else
      var p := store[key];
      if OnEditor(here) && canvasReady then
        if InjectWorkflowToCanvas(page, p.workflow.value).0 then (store - {key}, Delivered)
        else (store, NotDelivered)
      else
        var nav := NavigateToPendingRoute(store, here, p);
        (nav.0, Navigated(nav.1))
  }

  /** A record leaves the store only through a successful delivery. */
  lemma RecordRemovedOnlyOnSuccess(store: Store, here: Here, page: Page, canvasReady: bool)
    requires PendingKeyAt(here) in store
    requires PendingKeyAt(here) !in ConsumePendingWorkflow(store, here, page, canvasReady).0
    ensures ConsumePendingWorkflow(store, here, page, canvasReady).1 == Delivered
    ensures page.transferSupported
  {
    var p := store[PendingKeyAt(here)];
    if p.workflow.Some? {
      InjectionOutcome(page, p.workflow.value);
    }
  }

  /** Scheduling a workflow and then resuming on a page of the same host,
      on an editor route with the canvas ready, delivers that workflow and
      leaves the store as it was before, except that any older pending
      record of the host is gone. */
  lemma ScheduleThenResume(store: Store, here: Here, page: Page, now: int, w: Workflow,
                           there: Here, arrival: Page)
    requires FindCanvasTarget(page.query).None?
    requires HostOf(there) == HostOf(here)
    requires OnEditor(there) && arrival.transferSupported
    ensures var s1 := EnsureCanvasAndInject(store, here, page, now, w).0;
      var r := ConsumePendingWorkflow(s1, there, arrival, true);
      && r.1 == Delivered
      && r.0 == store - {PendingKeyAt(here)}
  {
    var s1 := EnsureCanvasAndInject(store, here, page, now, w).0;
    InjectionOutcome(arrival, w);
    assert s1[PendingKeyAt(here)].workflow == Some(w);
    assert s1 - {PendingKeyAt(here)} == store - {PendingKeyAt(here)};
  }

  /** Resuming away from an editor route, or before the canvas is ready,
      keeps the record and moves its index one step along the routes. */
  lemma ResumeElsewhereAdvances(store: Store, here: Here, page: Page, canvasReady: bool)
    requires StoreInvariant(store)
    requires PendingKeyAt(here) in store && store[PendingKeyAt(here)].workflow.Some?
    requires !OnEditor(here) || !canvasReady
    ensures var p := store[PendingKeyAt(here)];
      var r := ConsumePendingWorkflow(store, here, page, canvasReady);
      var n := |p.routes.routes|;
      && r.1 == Navigated(p.routes.routes[p.idx.n])
      && r.0[PendingKeyAt(here)] == p.(idx := Num((p.idx.n + 1) % n))
  {
  }
}
