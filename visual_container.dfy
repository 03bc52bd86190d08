/**
 * The view host of the state-inspection devtool: it derives the filtered data
 * of a (previous, current) snapshot pair, builds the six named view input
 * bundles, keeps the state it hoists above them (active tab, persist toggle,
 * throttle value, zoom/pan), and shows the navigation bar plus the bundle
 * under the active tab.
 */
module VisualContainer {
  import opened Wrappers
  import opened JsObject
  import opened React

  /** Payloads produced upstream; this component only passes them on. */
  type FilteredSnapshot
  type ComponentAtomTree
  type SelectedType
  /** The ancestor's `setSelected` dispatcher. */
  type SelectionSetter

  datatype Snapshot = Snapshot(filteredSnapshot: FilteredSnapshot, componentAtomTree: ComponentAtomTree)

  /** The component's props; either snapshot may be absent. */
  datatype Props = Props(
    previousSnapshot: Option<Snapshot>,
    currentSnapshot: Option<Snapshot>,
    snapshotHistory: seq<Snapshot>,
    selected: seq<SelectedType>,
    setSelected: SelectionSetter)

  /** Pan offsets and scale of the component graph. */
  datatype Zoom = Zoom(x: real, y: real, k: real)

  /** The setters of the component's own state, by identity. */
  datatype Setter = CheckedSetter | ThrottleDisplaySetter | ZoomStateSetter | TabSetter

  /** The component's own state, which persists across renders. */
  datatype HostState = HostState(checked: bool, throttleDisplay: string, zoom: Zoom, tab: string)

  const DefaultZoom := Zoom(50.0, 380.0, 0.07)
  const DefaultTab := "State Diff"
  const InitialState := HostState(false, "70", DefaultZoom, DefaultTab)

  // ---------------------------------------------------------------------------
  // Derived view inputs

  datatype Derived = Derived(
    filteredCurSnap: Option<FilteredSnapshot>,
    filteredPrevSnap: Option<FilteredSnapshot>,
    componentAtomTree: Option<ComponentAtomTree>)

  /**
   * `snap ? snap.field : undefined` for the three derived inputs: present
   * fields pass through unchanged, an absent snapshot gives absent fields.
   */
  function Derive(previous: Option<Snapshot>, current: Option<Snapshot>): (d: Derived)
    ensures current.None? ==> d.filteredCurSnap == None && d.componentAtomTree == None
    ensures current.Some? ==> d.filteredCurSnap == Some(current.value.filteredSnapshot)
    ensures current.Some? ==> d.componentAtomTree == Some(current.value.componentAtomTree)
    ensures d.filteredPrevSnap == None <==> previous == None
    ensures previous.Some? ==> d.filteredPrevSnap == Some(previous.value.filteredSnapshot)
  {
    match (previous, current)
    case (None, None) => Derived(None, None, None)
    case (Some(p), None) => Derived(None, Some(p.filteredSnapshot), None)
    case (None, Some(c)) => Derived(Some(c.filteredSnapshot), None, Some(c.componentAtomTree))
    case (Some(p), Some(c)) => Derived(Some(c.filteredSnapshot), Some(p.filteredSnapshot), Some(c.componentAtomTree))
  }

  /** The previous-snapshot input ignores the current snapshot, and the other two ignore the previous one. */
  lemma DeriveIndependence(p1: Option<Snapshot>, p2: Option<Snapshot>, c1: Option<Snapshot>, c2: Option<Snapshot>)
    ensures p1 == p2 ==> Derive(p1, c1).filteredPrevSnap == Derive(p2, c2).filteredPrevSnap
    ensures c1 == c2 ==> Derive(p1, c1).filteredCurSnap == Derive(p2, c2).filteredCurSnap
    ensures c1 == c2 ==> Derive(p1, c1).componentAtomTree == Derive(p2, c2).componentAtomTree
  {
  }

  // ---------------------------------------------------------------------------
  // The six views and the inputs each receives

  /** The six views, as a closed set. */
  datatype Tab = StateDiff | StateTree | ComponentGraph | AtomNetwork | StateGraph | Settings

  function Name(t: Tab): (name: string) {
    match t
    case StateDiff => "State Diff"
    case StateTree => "State Tree"
    case ComponentGraph => "Component Graph"
    case AtomNetwork => "Atom Network"
    case StateGraph => "State Graph"
    case Settings => "Settings"
  }

  /** The view a tab string names, if any. */
  function TabOf(name: string): (r: Option<Tab>)
    ensures r.Some? ==> Name(r.value) == name
    ensures r.None? ==> forall t: Tab :: Name(t) != name
  {
    if name == "State Diff" then Some(StateDiff)
    else if name == "State Tree" then Some(StateTree)
    else if name == "Component Graph" then Some(ComponentGraph)
    else if name == "Atom Network" then Some(AtomNetwork)
    else if name == "State Graph" then Some(StateGraph)
    else if name == "Settings" then Some(Settings)
    else None
  }

  /** The input bundle of each view element. */
  datatype ViewInput =
    | DiffInput(filteredPrevSnap: Option<FilteredSnapshot>, filteredCurSnap: Option<FilteredSnapshot>)
    | TreeInput(filteredCurSnap: Option<FilteredSnapshot>)
    | ComponentGraphInput(
        componentAtomTree: Option<ComponentAtomTree>,
        filteredCurSnap: Option<FilteredSnapshot>,
        x: real, y: real, k: real,
        setZoomState: Setter)
    | NetworkInput(filteredCurSnap: Option<FilteredSnapshot>)
    | VisualizerInput(filteredCurSnap: Option<FilteredSnapshot>)
    | SettingsInput(
        snapshotHistory: seq<Snapshot>,
        selected: seq<SelectedType>,
        setSelected: SelectionSetter,
        checked: bool,
        setChecked: Setter,
        throttleDisplay: string,
        setThrottleDisplay: Setter)

  /** The view a bundle is rendered by. */
  function ViewOf(v: ViewInput): (t: Tab) {
    match v
    case DiffInput(_, _) => StateDiff
    case TreeInput(_) => StateTree
    case ComponentGraphInput(_, _, _, _, _, _) => ComponentGraph
    case NetworkInput(_) => AtomNetwork
    case VisualizerInput(_) => StateGraph
    case SettingsInput(_, _, _, _, _, _, _) => Settings
  }

  /** The host setters a bundle hands to its view. */
  function SettersOf(v: ViewInput): (setters: set<Setter>) {
    match v
    case ComponentGraphInput(_, _, _, _, _, z) => {z}
    case SettingsInput(_, _, _, _, c, _, t) => {c, t}
    case _ => {}
  }

  /** The entries of the `nav` object literal, in source order. */
  function NavEntries(p: Props, s: HostState): (entries: seq<(string, ViewInput)>) {
    var d := Derive(p.previousSnapshot, p.currentSnapshot);
    [
      ("State Diff", DiffInput(d.filteredPrevSnap, d.filteredCurSnap)),
      ("State Tree", TreeInput(d.filteredCurSnap)),
      ("Component Graph", ComponentGraphInput(d.componentAtomTree, d.filteredCurSnap,
                                              s.zoom.x, s.zoom.y, s.zoom.k, ZoomStateSetter)),
      ("Atom Network", NetworkInput(d.filteredCurSnap)),
      ("State Graph", VisualizerInput(d.filteredCurSnap)),
      ("Settings", SettingsInput(p.snapshotHistory, p.selected, p.setSelected,
                                 s.checked, CheckedSetter, s.throttleDisplay, ThrottleDisplaySetter))
    ]
  }

  /** The `nav` object built on every render. */
  function Nav(p: Props, s: HostState): (nav: Obj<ViewInput>) {
    Literal(NavEntries(p, s))
  }

  /** `Object.keys(nav)`. */
  function TabsList(p: Props, s: HostState): (tabs: seq<string>) {
    Keys(Nav(p, s))
  }

  const TabNames: seq<string> :=
    ["State Diff", "State Tree", "Component Graph", "Atom Network", "State Graph", "Settings"]

  lemma NavEntriesDistinct(p: Props, s: HostState)
    ensures DistinctKeys(NavEntries(p, s))
    ensures KeysOf(NavEntries(p, s)) == TabNames
  {
  }

  /** The tab list is the six names in literal order, and the default tab is among them. */
  lemma TabsListFixed(p: Props, s: HostState)
    ensures TabsList(p, s) == TabNames
    ensures DefaultTab in TabsList(p, s)
    ensures forall t: Tab :: Name(t) in TabsList(p, s)
  {
    NavEntriesDistinct(p, s);
    LiteralKeys(NavEntries(p, s));
    assert TabNames[0] == DefaultTab;
    forall t: Tab ensures Name(t) in TabsList(p, s) {
      match t
      case StateDiff => assert TabNames[0] == Name(t);
      case StateTree => assert TabNames[1] == Name(t);
      case ComponentGraph => assert TabNames[2] == Name(t);
      case AtomNetwork => assert TabNames[3] == Name(t);
      case StateGraph => assert TabNames[4] == Name(t);
      case Settings => assert TabNames[5] == Name(t);
    }
  }

  /** `nav[name]`: a bundle exactly for the six names, and it is the bundle of the view that name denotes. */
  lemma NavLookup(p: Props, s: HostState, name: string)
    ensures Get(Nav(p, s), name).Some? <==> TabOf(name).Some?
    ensures Get(Nav(p, s), name).Some? ==> ViewOf(Get(Nav(p, s), name).value) == TabOf(name).value
  {
    match TabOf(name)
    case Some(StateDiff) => StateDiffInputs(p, s);
    case Some(StateTree) => SingleSnapshotInputs(p, s);
    case Some(ComponentGraph) => ComponentGraphInputs(p, s);
    case Some(AtomNetwork) => SingleSnapshotInputs(p, s);
    case Some(StateGraph) => SingleSnapshotInputs(p, s);
    case Some(Settings) => SettingsInputs(p, s);
    case None =>
      NavEntriesDistinct(p, s);
      assert name !in TabNames;
      LiteralMiss(NavEntries(p, s), name);
  }

  /** The diff view receives exactly the previous and current filtered snapshots. */
  lemma StateDiffInputs(p: Props, s: HostState)
    ensures Get(Nav(p, s), "State Diff") == Some(DiffInput(
      if p.previousSnapshot.Some? then Some(p.previousSnapshot.value.filteredSnapshot) else None,
      if p.currentSnapshot.Some? then Some(p.currentSnapshot.value.filteredSnapshot) else None))
  {
    NavEntriesDistinct(p, s);
    LiteralHit(NavEntries(p, s), 0);
  }

  /** The tree, network and graph views each receive only the current filtered snapshot. */
  lemma SingleSnapshotInputs(p: Props, s: HostState)
    ensures var cur := if p.currentSnapshot.Some? then Some(p.currentSnapshot.value.filteredSnapshot) else None;
      && Get(Nav(p, s), "State Tree") == Some(TreeInput(cur))
      && Get(Nav(p, s), "Atom Network") == Some(NetworkInput(cur))
      && Get(Nav(p, s), "State Graph") == Some(VisualizerInput(cur))
  {
    NavEntriesDistinct(p, s);
    LiteralHit(NavEntries(p, s), 1);
    LiteralHit(NavEntries(p, s), 3);
    LiteralHit(NavEntries(p, s), 4);
  }

  /** The component graph receives the tree, the current filtered snapshot, the zoom triple and only the zoom setter. */
  lemma ComponentGraphInputs(p: Props, s: HostState)
    ensures Get(Nav(p, s), "Component Graph") == Some(ComponentGraphInput(
      if p.currentSnapshot.Some? then Some(p.currentSnapshot.value.componentAtomTree) else None,
      if p.currentSnapshot.Some? then Some(p.currentSnapshot.value.filteredSnapshot) else None,
      s.zoom.x, s.zoom.y, s.zoom.k, ZoomStateSetter))
  {
    NavEntriesDistinct(p, s);
    LiteralHit(NavEntries(p, s), 2);
  }

  /** Settings receives the history, the selection and its updater, and the two capture settings with their setters. */
  lemma SettingsInputs(p: Props, s: HostState)
    ensures Get(Nav(p, s), "Settings") == Some(SettingsInput(
      p.snapshotHistory, p.selected, p.setSelected,
      s.checked, CheckedSetter, s.throttleDisplay, ThrottleDisplaySetter))
  {
    NavEntriesDistinct(p, s);
    LiteralHit(NavEntries(p, s), 5);
  }

  /**
   * Each host setter reaches exactly one view: the zoom setter only the
   * component graph, the two settings setters only Settings, the tab setter
   * none; and only Settings receives the history and the selection.
   */
  lemma SetterOwnership(p: Props, s: HostState, name: string)
    requires Get(Nav(p, s), name).Some?
    ensures var v := Get(Nav(p, s), name).value;
      && (ZoomStateSetter in SettersOf(v) <==> name == "Component Graph")
      && (CheckedSetter in SettersOf(v) <==> name == "Settings")
      && (ThrottleDisplaySetter in SettersOf(v) <==> name == "Settings")
      && TabSetter !in SettersOf(v)
      && (v.SettingsInput? <==> name == "Settings")
  {
    NavLookup(p, s, name);
    ComponentGraphInputs(p, s);
    SettingsInputs(p, s);
  }

  // ---------------------------------------------------------------------------
  // Rendering

  datatype NavBarInput = NavBarInput(setTab: Setter, tabsList: seq<string>, tab: string)

  /** What one render shows: the nav bar, and the bundle under the active tab if there is one. */
  datatype Frame = Frame(navBar: NavBarInput, view: Option<ViewInput>)

  function Render(p: Props, s: HostState): (f: Frame) {
    Frame(NavBarInput(TabSetter, TabsList(p, s), s.tab), Get(Nav(p, s), s.tab))
  }

  /** The nav bar gets the six names and the active tab; the view shown is that tab's, or none for any other string. */
  lemma DisplayRule(p: Props, s: HostState)
    ensures Render(p, s).navBar == NavBarInput(TabSetter, TabNames, s.tab)
    ensures Render(p, s).view.None? <==> s.tab !in TabNames
    ensures Render(p, s).view.Some? ==> ViewOf(Render(p, s).view.value) == TabOf(s.tab).value
  {
    TabsListFixed(p, s);
    NavLookup(p, s, s.tab);
  }

  /** On mount the diff view is shown, fed from the given snapshot pair. */
  lemma InitialRender(p: Props)
    ensures Render(p, InitialState).view == Some(DiffInput(
      if p.previousSnapshot.Some? then Some(p.previousSnapshot.value.filteredSnapshot) else None,
      if p.currentSnapshot.Some? then Some(p.currentSnapshot.value.filteredSnapshot) else None))
  {
    StateDiffInputs(p, InitialState);
  }

  // ---------------------------------------------------------------------------
  // State updates

  /** A call of one of the host's setters, by a view or by the nav bar. */
  datatype Event =
    | CheckedUpdate(checkedAction: SetStateAction<bool>)
    | ThrottleDisplayUpdate(throttleAction: SetStateAction<string>)
    | ZoomUpdate(zoomAction: SetStateAction<Zoom>)
    | TabUpdate(tabAction: SetStateAction<string>)

  /** The state after one setter call: the called setter's field is updated, no other. */
  function Step(s: HostState, e: Event): (s': HostState) {
    match e
    case CheckedUpdate(a) => s.(checked := Next(a, s.checked))
    case ThrottleDisplayUpdate(a) => s.(throttleDisplay := Next(a, s.throttleDisplay))
    case ZoomUpdate(a) => s.(zoom := Next(a, s.zoom))
    case TabUpdate(a) => s.(tab := Next(a, s.tab))
  }

  /** The state after a sequence of setter calls, oldest first. */
  function Run(s: HostState, es: seq<Event>): (s': HostState)
    decreases |es|
  {
    if es == [] then s else Run(Step(s, es[0]), es[1..])
  }

  /** The tab an event sequence leaves selected, starting from `tab`. */
  function LastTab(tab: string, es: seq<Event>): (last: string)
    decreases |es|
  {
    if es == [] then tab
    else LastTab(if es[0].TabUpdate? then Next(es[0].tabAction, tab) else tab, es[1..])
  }

  /** Any sequence of tab switches changes only the tab: zoom and capture settings survive it. */
  lemma {:induction false} TabSwitchesPreserveState(s: HostState, es: seq<Event>)
    requires forall i :: 0 <= i < |es| ==> es[i].TabUpdate?
    ensures Run(s, es) == s.(tab := LastTab(s.tab, es))
    decreases |es|
  {
    if es != [] {
      TabSwitchesPreserveState(Step(s, es[0]), es[1..]);
    }
  }

  /** Events that do not call the zoom setter leave the zoom as it was. */
  lemma {:induction false} ZoomPersists(s: HostState, es: seq<Event>)
    requires forall i :: 0 <= i < |es| ==> !es[i].ZoomUpdate?
    ensures Run(s, es).zoom == s.zoom
    decreases |es|
  {
    if es != [] {
      ZoomPersists(Step(s, es[0]), es[1..]);
    }
  }

  /** A tab switch made through the nav bar carries one of its names. */
  predicate FromNavBar(e: Event) {
    e.TabUpdate? ==> e.tabAction.Value? && e.tabAction.next in TabNames
  }

  /** If the tab is set only to names the nav bar lists, some view is always shown. */
  lemma {:induction false} TabStaysValid(p: Props, s: HostState, es: seq<Event>)
    requires s.tab in TabNames
    requires forall i :: 0 <= i < |es| ==> FromNavBar(es[i])
    ensures Run(s, es).tab in TabNames
    ensures Render(p, Run(s, es)).view.Some?
    decreases |es|
  {
    if es == [] {
      DisplayRule(p, s);
    } else {
      assert FromNavBar(es[0]);
      TabStaysValid(p, Step(s, es[0]), es[1..]);
    }
  }

  /**
   * On the component graph, zoom to (10, 10, 0.5), leave for the tree view and
   * come back: the graph is shown with the zoom it had before it was left.
   */
  lemma ZoomSurvivesTabRoundTrip(p: Props)
    ensures var z := Zoom(10.0, 10.0, 0.5);
      var dragged := Run(InitialState, [TabUpdate(Value("Component Graph")), ZoomUpdate(Value(z))]);
      var back := Run(dragged, [TabUpdate(Value("State Tree")), TabUpdate(Value("Component Graph"))]);
      var graph := ComponentGraphInput(
           if p.currentSnapshot.Some? then Some(p.currentSnapshot.value.componentAtomTree) else None,
           if p.currentSnapshot.Some? then Some(p.currentSnapshot.value.filteredSnapshot) else None,
           10.0, 10.0, 0.5, ZoomStateSetter);
      && Render(p, dragged).view == Some(graph)
      && back.zoom == z
      && Render(p, back).view == Some(graph)
  {
    var z := Zoom(10.0, 10.0, 0.5);
    var first := [TabUpdate(Value("Component Graph")), ZoomUpdate(Value(z))];
    var s1 := Step(InitialState, first[0]);
    assert Run(InitialState, first) == Run(s1, first[1..]);
    assert Run(s1, first[1..]) == Step(s1, first[1]);
    var dragged := Run(InitialState, first);
    assert dragged == HostState(false, "70", z, "Component Graph");
    ComponentGraphInputs(p, dragged);
    var es := [TabUpdate(Value("State Tree")), TabUpdate(Value("Component Graph"))];
    TabSwitchesPreserveState(dragged, es);
    assert es[1..] == [TabUpdate(Value("Component Graph"))];
    assert LastTab("Component Graph", es[1..][1..]) == "Component Graph";
    assert LastTab(dragged.tab, es) == "Component Graph";
    ComponentGraphInputs(p, Run(dragged, es));
  }

  /** Selecting Settings on a fresh host shows it with the default capture settings and the default zoom untouched. */
  lemma SettingsAfterMount(p: Props)
    ensures var s := Run(InitialState, [TabUpdate(Value("Settings"))]);
      && s.zoom == DefaultZoom
      && Render(p, s).view == Some(SettingsInput(
           p.snapshotHistory, p.selected, p.setSelected, false, CheckedSetter, "70", ThrottleDisplaySetter))
  {
    var es := [TabUpdate(Value("Settings"))];
    assert Run(InitialState, es) == Step(InitialState, es[0]);
    SettingsInputs(p, Run(InitialState, es));
  }

  // ---------------------------------------------------------------------------
  // The component instance

  /** One mounted view host: the state its `useState` hooks keep between renders. */
  class ViewHost {
    var checked: bool
    var throttleDisplay: string
    var zoom: Zoom
    var tab: string

    function State(): (s: HostState)
      reads this
    {
      HostState(checked, throttleDisplay, zoom, tab)
    }

    /** Mounting: every hook starts at its default. */
    constructor ()
      ensures checked == false && throttleDisplay == "70"
      ensures zoom == Zoom(50.0, 380.0, 0.07) && tab == "State Diff"
      ensures State() == InitialState
    {
      checked := false;
      throttleDisplay := "70";
      zoom := DefaultZoom;
      tab := DefaultTab;
    }

    /** `setChecked`. */
    method SetChecked(a: SetStateAction<bool>)
      modifies this
      ensures checked == Next(a, old(checked))
      ensures throttleDisplay == old(throttleDisplay) && zoom == old(zoom) && tab == old(tab)
      ensures State() == Step(old(State()), CheckedUpdate(a))
    {
      checked := Next(a, checked);
    }

    /** `setThrottleDisplay`; the string is stored as given. */
    method SetThrottleDisplay(a: SetStateAction<string>)
      modifies this
      ensures throttleDisplay == Next(a, old(throttleDisplay))
      ensures checked == old(checked) && zoom == old(zoom) && tab == old(tab)
      ensures State() == Step(old(State()), ThrottleDisplayUpdate(a))
    {
      throttleDisplay := Next(a, throttleDisplay);
    }

    /** `setZoomState`. */
    method SetZoomState(a: SetStateAction<Zoom>)
      modifies this
      ensures zoom == Next(a, old(zoom))
      ensures checked == old(checked) && throttleDisplay == old(throttleDisplay) && tab == old(tab)
      ensures State() == Step(old(State()), ZoomUpdate(a))
    {
      zoom := Next(a, zoom);
    }

    /** `setTab`; any string is accepted. */
    method SetTab(a: SetStateAction<string>)
      modifies this
      ensures tab == Next(a, old(tab))
      ensures checked == old(checked) && throttleDisplay == old(throttleDisplay) && zoom == old(zoom)
      ensures State() == Step(old(State()), TabUpdate(a))
    {
      tab := Next(a, tab);
    }

    /** Renders with the current state; reading state changes nothing. */
    method Show(p: Props) returns (f: Frame)
      ensures f == Render(p, State())
      ensures f.navBar.tabsList == TabNames && f.navBar.tab == tab
      ensures f.view.None? <==> tab !in TabNames
    {
      DisplayRule(p, State());
      f := Render(p, State());
    }
  }
}
