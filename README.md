# VisualContainer: the view host of a state-inspection devtool

This is a model of `VisualContainer`, the React component that hosts the devtool's views. It takes a (previous, current) snapshot pair, the snapshot history and the ancestor's selection state as props. It does four things:

- It derives `filteredCurSnap`, `filteredPrevSnap` and `componentAtomTree`. Each one is a snapshot field, or `undefined` when that snapshot is absent.
- It evaluates the `nav` object literal. This maps six tab names to the elements of the six views, and each element gets its own input bundle.
- It lists the tabs with `Object.keys(nav)`.
- It keeps four pieces of hoisted state in `useState` hooks: `checked`, `throttleDisplay`, the zoom triple `{x, y, k}` and `tab`. It renders the nav bar plus `nav[tab]`.

The project has two files:

- `platform.dfy` models the parts of JavaScript and React that the component depends on.
  - `Wrappers.Option` stands for "undefined or a value".
  - `JsObject` models the object literal as property creation in order, as section 13.2.5.4 of ECMA-262 describes. It also models `Object.keys`, which follows creation order (section 10.1.11.1 of ECMA-262, OrdinaryOwnPropertyKeys), and the member access `o[key]`.
  - `React.SetStateAction` is a setter argument: either the next value, or an updater applied to the previous value.
- `visual_container.dfy` models the component.
  - The derivation is a pure function, `Derive`.
  - The `nav` literal is `Nav`, built from `NavEntries`. The closed set of views is `Tab`, and `TabOf` is the string lookup that can miss.
  - One render is `Render`.
  - A setter call is an `Event`. One call is `Step`, and a sequence of calls is `Run`.
  - The mounted instance is the class `ViewHost`. Its fields are the four hooks. It has one setter method per hook, and `Show` renders the current state.

In the source, the props types do not say that either snapshot may be missing. The code checks each one for truthiness, and the model follows the code by giving both snapshots the type `Option`. Nothing in the component keeps `tab` among the six names: `setTab` stores any string. For a string that is neither one of the six names nor a property of `Object.prototype`, `nav[tab]` is `undefined`, and only the nav bar renders (`DisplayRule`). `TabStaysValid` takes as its assumption that the nav bar calls `setTab` only with names from the list it is given, and proves that under it the tab stays one of the six names.

## Model

| member | source | states |
|---|---|---|
| `JsObject.Lookup` | src/app/Containers/VisualContainer.tsx:113 | a property read misses exactly when the key is not an own key; a hit returns a value stored under that key |
| `JsObject.PutKeys` | src/app/Containers/VisualContainer.tsx:64-104 | creating a property keeps the key order when the key already exists, otherwise it appends the key at the end |
| `JsObject.PutLookup` | src/app/Containers/VisualContainer.tsx:64-104 | after a property is created, its key reads back the new value and every other key reads as before |
| `JsObject.LiteralKeys` | src/app/Containers/VisualContainer.tsx:64-106 | `Object.keys` of an object literal with distinct keys is the list of its keys in the order written |
| `JsObject.LiteralMiss` | src/app/Containers/VisualContainer.tsx:113 | reading a key that the literal never writes gives `undefined` |
| `JsObject.LiteralHit` | src/app/Containers/VisualContainer.tsx:64-104 | in a literal with distinct keys, each key reads back the value written with it |
| `VisualContainer.Derive` | src/app/Containers/VisualContainer.tsx:54-62 | without a current snapshot, `filteredCurSnap` and `componentAtomTree` are absent; with one, they are its two fields unchanged; `filteredPrevSnap` is absent exactly when the previous snapshot is, otherwise it is that snapshot's `filteredSnapshot` |
| `VisualContainer.DeriveIndependence` | src/app/Containers/VisualContainer.tsx:54-62 | `filteredPrevSnap` does not depend on the current snapshot; `filteredCurSnap` and `componentAtomTree` do not depend on the previous snapshot |
| `VisualContainer.TabOf` | src/app/Containers/VisualContainer.tsx:64-104 | a string names a view exactly when it is one of that view's names; any other string names no view |
| `VisualContainer.NavEntriesDistinct` | src/app/Containers/VisualContainer.tsx:64-104 | the six keys of the `nav` literal are distinct, and in order they are the six tab names |
| `VisualContainer.TabsListFixed` | src/app/Containers/VisualContainer.tsx:64-108 | `tabsList` is exactly `["State Diff", "State Tree", "Component Graph", "Atom Network", "State Graph", "Settings"]` on every render; the default tab and every view's name are in it |
| `VisualContainer.NavLookup` | src/app/Containers/VisualContainer.tsx:64-113 | `nav[name]` is defined exactly for the six names, and it is the bundle of the view that `name` denotes |
| `VisualContainer.StateDiffInputs` | src/app/Containers/VisualContainer.tsx:66-71 | the diff view receives exactly the previous snapshot's and the current snapshot's filtered data, each absent when its snapshot is |
| `VisualContainer.SingleSnapshotInputs` | src/app/Containers/VisualContainer.tsx:73-90 | "State Tree", "Atom Network" and "State Graph" each receive only the current snapshot's filtered data |
| `VisualContainer.ComponentGraphInputs` | src/app/Containers/VisualContainer.tsx:75-84 | "Component Graph" receives the current snapshot's `componentAtomTree` and filtered data, the current zoom `x`, `y`, `k` and the zoom setter |
| `VisualContainer.SettingsInputs` | src/app/Containers/VisualContainer.tsx:93-103 | "Settings" receives the history, `selected` and `setSelected` unchanged, plus `checked` and `throttleDisplay` with their setters |
| `VisualContainer.SetterOwnership` | src/app/Containers/VisualContainer.tsx:64-104 | the zoom setter reaches only "Component Graph"; the two settings setters reach only "Settings"; no view gets the tab setter; only "Settings" gets the history and the selection |
| `VisualContainer.DisplayRule` | src/app/Containers/VisualContainer.tsx:106-113 | the nav bar gets the tab setter, the six names and the active tab; reading own properties only, a view is shown exactly when the tab is one of the six names, and it is that tab's view |
| `VisualContainer.InitialRender` | src/app/Containers/VisualContainer.tsx:108-113 | on mount, the diff view is shown with the filtered previous and current snapshots |
| `VisualContainer.TabSwitchesPreserveState` | src/app/Containers/VisualContainer.tsx:41-51 | any sequence of tab changes leaves zoom, `checked` and `throttleDisplay` as they were, and changes only the tab |
| `VisualContainer.ZoomPersists` | src/app/Containers/VisualContainer.tsx:46-51 | setter calls that are not zoom updates never change the zoom |
| `VisualContainer.TabStaysValid` | src/app/Containers/VisualContainer.tsx:106-113 | if the tab starts as one of the six names and every change sets a name from the nav bar's list, the tab stays one of the six and a view is always shown |
| `VisualContainer.ZoomSurvivesTabRoundTrip` | src/app/Containers/VisualContainer.tsx:46-113 | from mount, open "Component Graph" and zoom to (10, 10, 0.5): the graph is shown with that zoom; switch to "State Tree" and back to "Component Graph": the zoom is still (10, 10, 0.5), and the graph receives it again |
| `VisualContainer.SettingsAfterMount` | src/app/Containers/VisualContainer.tsx:41-108 | select "Settings" right after mount: the zoom is still the default, and Settings receives the history, the selection, `checked = false` and `throttleDisplay = "70"` |
| `VisualContainer.ViewHost.constructor` | src/app/Containers/VisualContainer.tsx:41-108 | on mount `checked` is `false`, `throttleDisplay` is `"70"`, zoom is `{x: 50, y: 380, k: 0.07}` and `tab` is `"State Diff"` |
| `VisualContainer.ViewHost.SetChecked` | src/app/Containers/VisualContainer.tsx:41 | `checked` takes the action's value (or the updater applied to the old value); the other three fields are unchanged |
| `VisualContainer.ViewHost.SetThrottleDisplay` | src/app/Containers/VisualContainer.tsx:44 | `throttleDisplay` is stored as given, without interpretation; the other three fields are unchanged |
| `VisualContainer.ViewHost.SetZoomState` | src/app/Containers/VisualContainer.tsx:47-51 | the zoom is replaced as a whole triple; the other three fields are unchanged |
| `VisualContainer.ViewHost.SetTab` | src/app/Containers/VisualContainer.tsx:108 | `tab` takes any string; zoom, `checked` and `throttleDisplay` are unchanged |
| `VisualContainer.ViewHost.Show` | src/app/Containers/VisualContainer.tsx:110-115 | rendering the current state changes nothing; it shows the six tab names and the active tab, and no view when the tab is not one of them |

## Left out

- The Diff, Tree, AtomComponentVisualContainer, Network, Visualizer, Settings and NavBar components (src/app/Containers/VisualContainer.tsx:2-8) are not modelled. Their source is not part of this model, so each one is reduced to the input bundle it receives.
- `stateSnapshot` and `selectedTypes` are opaque types, because the types file is not part of this model. The same goes for the filtered snapshot, the component/atom tree and the ancestor's `setSelected` dispatcher.
- React hooks, re-rendering, JSX and the wrapping `div` are not modelled. State persists in the `ViewHost` fields, and one render is the pure function `Render`.
- React's bail-out when a setter is called with an unchanged value is not modelled. That bail-out only skips a re-render and is not visible in the state.
- Building all six elements on every render has side effects only inside the children, whose code is not part of this model. `Render` computes the whole `nav` object but does not model those side effects.
- The zoom values are exact `real`s, while JavaScript uses doubles. For example, `0.07` is the exact rational here. They are only stored and passed on, never computed with.
- Nothing in the component parses or validates `throttleDisplay`, so the model stores it as a plain string.
- `JsObject.Get` covers only own properties. Two JavaScript behaviours are not modelled:
  - A read such as `nav["toString"]` would find a property on the prototype chain.
  - `Object.keys` puts array-index keys first. None of the six keys is an array index.
- DisplayRule: states that only the nav bar renders for every tab string outside the six names. That holds only for strings that are not properties of `Object.prototype`, because `Get` reads own properties only. The code behaves differently for two kinds of such strings:
  - `tab` = `"toString"` or `"constructor"` makes `nav[tab]` a function; React renders nothing for it and warns.
  - `tab` = `"__proto__"` makes `nav[tab]` the object `Object.prototype`; React refuses it as a child at line 113 and throws during the render.
- Setters are modelled as identity tags (`Setter`), not as functions. Which setter each view receives is what the model captures.
