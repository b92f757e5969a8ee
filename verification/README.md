# solid-hooks core, modelled in Dafny

This project models the parts of the `@solid-hooks/core` hook library that
carry explicit state or logic, with Solid's reactive runtime replaced by
explicit method calls. A run of an effect is a method call that receives
the values the effect would read. A signal or a closure variable is a field.
A DOM element is a small class holding the state the hook writes.

The modules:

- `Watch`, `WatchTraces`: the watch session behind `watch`, `watchImmediate`
  and `watchRendered`. It covers the `defer` first run, the `count` ceiling,
  `pause`/`resume`/`ignoreUpdate`, and the old-value chain, with a ghost log
  of callback invocations. `watchOnce` is modelled too. The four unfiltered
  scenarios of `tests/watch.test.ts` are replayed as methods with exact
  postconditions; the `eventFilter` scenario is not.
- `Js`: the JavaScript value semantics the hooks rely on: truthiness, `??`,
  and `===` (NaN differs from itself).
- `Cls`: `cls(...)`, the loop proved against a join of the used arguments.
  Lemmas cover emptiness, single arguments, separators, the split round
  trip and the test cases.
- `Equality`, `Objects`, `Tracker`, `Reactive`, `RefSignal`: the equality
  gate shared by `createTracker`, `createReactive` and `createRefSignal`. A
  set writes and fires the trigger exactly when the `equals` policy reports
  a change, and returns the computed value either way.
- `Toggle`, `ArraySignal`: `createToggle`, and `createArray` with its
  replace-or-patch-a-copy setter. The array setter leaves the previous array
  object untouched.
- `Props`: `useProps` and its `??` defaults.
- `App`: `mergeProviders` (a left fold, so the last provider is outermost)
  and `createApp().use(...).mount(...)`.
- `Draggable`: `useDraggable`'s pointer handlers, enable/disable, and
  `clamp`.
- `Worker`: `depsParser`, with a read-back round trip, and the status
  machine of `useWebWorkerFn`.
- `Theme`, `ColorMode`, `Dark`, `Dom`: the `isDark` memo and the class,
  attribute and colour-scheme writes of `useColorMode` and `useDark`.
- `Tags`, `ResourceTag`, `External`: the `src`/`textContent` choice and the
  write-if-different effect of `useResourceTag` and `useExternal`. The
  regular expression is given as a declarative pattern, and a lemma proves
  the scanner equivalent to it.

Where the code and its documentation or tests disagree, the model follows
the code:

- `useProps` leaves `rest` empty. Every iterated key is in the key set, so
  every key goes to `pick`. The doc comment and the tests expect `rest` to
  hold the other props, and the tests import an `accessProps` that
  src/props.ts does not define.
- In `createApp`, the provider added by the last `use` is the outermost
  one. The doc example shows the first one outermost.
- `cls` is modelled over its declared argument types. Arrays are outside
  them, and an array argument would be stringified with commas rather than
  flattened as the tests expect.
- A custom `setter` of `createTracker` has its return value ignored. The
  option's doc comment says the value is used in the equality check.
- `isDragging` is true exactly when no drag is in progress, as written.
- `ignoreUpdate` always ends with the session watching, even when it was
  paused before the call.
- For a non-class attribute, `useDark` always writes 'dark', whatever the
  mode. Its memo reads the preference untracked, so under 'auto' a change
  of preference is not seen until the mode itself changes.

## Model

| member | source | states |
|---|---|---|
| Watch.DeferOption | src/watch.ts:98 | `defer` is true unless the option gives it |
| Watch.CountOption | src/watch.ts:98 | `count` is -1 (unlimited) unless the option gives it |
| Watch.Admits | src/watch.ts:113 | a run calls back iff watching and either the count is -1 or below or fewer than `count` calls were made |
| Watch.AdmitsByCount | src/watch.ts:113 | a count of -1 or below never blocks; a count of 0 blocks every call; otherwise a call is admitted iff watching and fewer than `count` calls were made |
| Watch.Snapshot | src/watch.ts:108 | an array source is read as the accessors' current values, one per accessor, in order |
| Watch.RunOnDeps | src/watch.ts:106-116 | one effect run over an array source: the callback, when the defer flag and gate let it run, receives the accessors' values in order and the previous value; the session invariant is kept |
| Watch.Watcher.constructor | src/watch.ts:94-98 | a new session is watching, with callTimes 0, no old value, and the `defer`/`count` defaults applied |
| Watch.Watcher.Trigger | src/watch.ts:100-116 | a deferred first run only clears `defer`; otherwise the callback runs iff the gate admits it, receiving (value, previous value, callTimes + 1); a refused run changes nothing; the session invariant (callTimes = log length ≤ count, chained old values) is kept |
| Watch.Watcher.Pause | src/watch.ts:123 | sets watching to false and changes nothing else |
| Watch.Watcher.Resume | src/watch.ts:124 | sets watching to true and replays nothing |
| Watch.Watcher.IgnoreUpdate | src/watch.ts:127-131 | the change arrives while not watching, so no callback runs and callTimes and the old value are unchanged; afterwards the session is watching whatever its state before |
| Watch.Create | src/watch.ts:88-120 | registration runs the effect once: deferred, nothing is called; otherwise the callback gets (initial, undefined, 1) unless count is 0 |
| Watch.CallTimesBounded | src/watch.ts:100-115 | callTimes never exceeds a count of 0 or more; a count of 0 means no call ever happens |
| Watch.OldValueIsPreviousCall | src/watch.ts:97-103 | every call's old value is the previous call's value, and its count is one more than the previous call's |
| Watch.OnceWatcher.constructor | src/watch.ts:203-204 | the value read at registration is kept |
| Watch.OnceWatcher.Change | src/watch.ts:205 | the first change calls back with (new value, registered value); later changes call nothing |
| WatchTraces.BasicTrace | tests/watch.test.ts:14-27 | default options: nothing at registration, then (1, undefined, 1) and (2, 1, 2) |
| WatchTraces.PauseResumeTrace | tests/watch.test.ts:29-49 | a change while paused is not reported, and the next report after resume has the value from before the pause as its old value |
| WatchTraces.CountTrace | tests/watch.test.ts:51-70 | with count 2 the third change is dropped and callTimes stays 2 |
| WatchTraces.ImmediateTrace | tests/watch.test.ts:72-87 | with defer false: (0, undefined, 1), (10, 0, 2), (20, 10, 3) |
| WatchTraces.IgnoreUpdateTrace | src/watch.ts:127-131 | ignoreUpdate on a paused session drops the change and leaves it watching; the next change reports the last reported value as old |
| WatchTraces.OnceTrace | src/watch.ts:203-206 | watchOnce reports (1, 0) once and then nothing |
| Js.Coalesce | src/props.ts:29 | `a ?? b` is `b` exactly when `a` is null or undefined |
| Js.StrictEqualsReflexiveButNaN | src/tracker.ts:39 | `===` holds between a value and itself for every value except NaN |
| Cls.UsedIsNonEmptyString | src/web/cls.ts:9 | an argument is used iff it is a non-empty string: falsy values and truthy non-strings are skipped |
| Cls.ClassNames | src/web/cls.ts:6-11 | at most one kept name per argument, and no kept name is empty |
| Cls.ClassString | src/web/cls.ts:6-11 | the loop's result is the used arguments, in order, joined by single spaces |
| Cls.JoinSpacedEmpty | src/web/cls.ts:9 | joining non-empty names gives '' exactly when there are none |
| Cls.JoinSpacedSnoc | src/web/cls.ts:9 | a name is appended with a separator only when the string so far is non-empty |
| Cls.EmptyIffNoClassNames | src/web/cls.ts:7-11 | the result is '' exactly when no argument is used, so `cls()` is '' |
| Cls.ClassNamesEmpty | src/web/cls.ts:9 | no names are kept exactly when no argument is used |
| Cls.ClassNameFromArgument | src/web/cls.ts:9 | every kept name is the string of some used argument |
| Cls.SingleArgument | src/web/cls.ts:9 | a single string comes back unchanged; any other single argument gives '' |
| Cls.NoOuterSeparator | src/web/cls.ts:9 | the result starts with the first name's first character and ends with the last name's last character, so no separator is added at either end (a name's own spaces are kept) |
| Cls.SplitJoinSpaced | src/web/cls.ts:9 | splitting the result on spaces gives back the names when no name contains a space |
| Cls.VariadicExamples | tests/cls.test.ts:13-16 | ('foo', 'bar') gives 'foo bar'; ('foo', false, 'baz') gives 'foo baz' |
| Cls.SkipsFalsyEnds | tests/cls.test.ts:17 | (false, 'bar', 'baz', '') gives 'bar baz' |
| Cls.NonStringExamples | tests/cls.test.ts:36-44 | numbers, Infinity and NaN give '' |
| Equality.NewValue | src/tracker.ts:51 | a value argument is the new value; a function argument is applied to the current value |
| Equality.WritesByPolicy | src/tracker.ts:36-40 | with `===` a set writes iff the value differs or is NaN; `equals: false` always writes; a custom `equals(current, next)` writes iff it returns false |
| Equality.DefaultSettles | src/tracker.ts:38-39 | under `===`, setting the current value again writes nothing, except for NaN |
| Objects.JsObject.Read | src/tracker.ts:34 | `data[key]` is the stored property, or undefined when absent |
| Tracker.Property.constructor | src/tracker.ts:27-44 | the cell is bound to the object, key, equality policy and optional setter, with no trigger fired |
| Tracker.Property.Get | src/tracker.ts:34-48 | the getter returns the object's own property `key`, or undefined when it has none |
| Tracker.Property.Set | src/tracker.ts:50-57 | returns the computed value; without a change nothing is written or triggered; with one the trigger fires once and either only `data[key]` changes (to the new value) or the custom setter's result replaces the object state |
| Tracker.SetTwice | src/tracker.ts:50-57 | with `===` and the default assignment, setting the same value twice triggers at most once, and not at all when it was already there |
| Reactive.CreateReactive | src/reactive.ts:30-65 | `createReactive` builds the same cell as `createTracker`, reading `data[key]`, with no trigger fired |
| RefSignal.Cell.constructor | src/ref-signal.ts:19-33 | the cell is bound to the object state, the path's get/put pair and the equality policy, with nothing written yet |
| RefSignal.Cell.Get | src/ref-signal.ts:26-38 | when the path reads back (put-then-get), the getter returns the last value the setter wrote |
| RefSignal.Cell.Set | src/ref-signal.ts:39-48 | returns the computed value; `pathSet` and the trigger happen exactly when the policy reports a change; when put-then-get reads back, the getter then returns the new value; the last written value is recorded |
| Toggle.Next | src/toggle.ts:30 | an explicit value is taken as is; without one the state is negated |
| Toggle.ToggleSignal.constructor | src/toggle.ts:22-26 | the state starts at the initial value, false when none is given |
| Toggle.ToggleSignal.Toggle | src/toggle.ts:30 | sets the given value or flips the state, and returns the new state |
| Toggle.ToggleTwice | src/toggle.ts:30 | two argument-less toggles restore the original state |
| ArraySignal.ArrayState.constructor | src/array.ts:27-28 | a missing initial value gives a fresh empty array |
| ArraySignal.ArrayState.Set | src/array.ts:30-39 | an array argument becomes the state as is; a patcher edits a fresh copy, which becomes the state, and the previous array object keeps its contents; the new state is returned |
| Props.Evaluate | src/props.ts:29 | a picked value is `props[key]` unless that is null or undefined, in which case it is `defaults[key]` |
| Props.FalsyKept | src/props.ts:29 | a present 0, '' or false is kept, not replaced by the default |
| Props.UseProps | src/props.ts:20-37 | with distinct keys, `pick` defines exactly the listed keys, each bound to its own memo, and `rest` is empty; a repeated key fails on the second definition |
| App.MergeProviders | src/app.ts:42-51 | the fold adds one level per provider around the app, keeps the app at the centre, and puts the last provider outermost |
| App.Wrap | src/app.ts:43-49 | one fold step wraps the inner tree as `children`, with the options defaulting to {} and without their own `children` |
| App.MergeShape | src/app.ts:42-51 | every provider is nested once: the depth is the number of providers, reading outside-in gives them in reverse order, and the app is at the centre |
| App.LastIsOutermost | src/app.ts:42-51 | without providers the result is the app; otherwise the last provider registered is the outermost |
| App.ProviderWrapsPrefix | src/app.ts:42-51 | provider i wraps exactly the tree built from providers 0..i-1 |
| App.AppBuilder.constructor | src/app.ts:85-89 | a new builder has no providers |
| App.AppBuilder.Use | src/app.ts:92-95 | appends the provider and its props, in call order, and returns the same builder |
| App.AppBuilder.Mount | src/app.ts:97-104 | in development a missing root fails with `root node "<selector>" is null`; otherwise the merged tree, with app props defaulting to {}, is rendered into the root |
| App.ChainExample | src/app.ts:92-104 | `createApp(A).use(P1).use(P2).mount(...)` renders P2 around P1 around A |
| Draggable.Clamp | src/draggable.ts:223-225 | with min ≤ max the result lies in [min, max], is `val` when already inside and `min` below it; with min > max it is max |
| Draggable.ClampBounds | src/draggable.ts:223-225 | with min ≤ max the result lies in [min, max], equals a value already inside, and clamping twice changes nothing; with min > max it is max |
| Draggable.MovedTo | src/draggable.ts:160-169 | a movable axis becomes client − start; a locked axis keeps its coordinate |
| Draggable.AxisLock | src/draggable.ts:121-122 | 'x' keeps y, 'y' keeps x, and 'both' places the element so the grab point stays under the pointer |
| Draggable.Drag.constructor | src/draggable.ts:107-124 | defaults: leftClick true, initial position {0, 0}, axis 'both', bindOnMount true; the position starts as the initial position, with no drag started |
| Draggable.Drag.IsDragging | src/draggable.ts:208 | reads true exactly when no start position is recorded, that is, when no drag is in progress (the inverse of its name) |
| Draggable.Drag.IsDraggable | src/draggable.ts:209-212 | in a valid state, reading true means at least one set of pointer listeners is attached |
| Draggable.Drag.Enable | src/draggable.ts:129-193 | attaches one more set of listeners and makes the element draggable |
| Draggable.Drag.Disable | src/draggable.ts:214-218 | detaches the set of listeners whose cleanup is held, if any, and makes the element not draggable |
| Draggable.Drag.ResetPosition | src/draggable.ts:219 | the position becomes the initial position |
| Draggable.Drag.PointerDown | src/draggable.ts:133-150 | ignored with a start recorded, a non-left button under leftClick, a primary pointer under ignoreMultiPointer, or onStart returning false; otherwise the start is the pointer relative to the element's rectangle |
| Draggable.Drag.PointerMove | src/draggable.ts:156-171 | without a start nothing changes; otherwise the position moves per the axis lock and each listener set reports it |
| Draggable.Drag.PointerUp | src/draggable.ts:177-184 | without a start nothing happens; otherwise the start is cleared and the current position is reported |
| Draggable.EnableTwiceThenDisable | src/draggable.ts:187-218 | enabling an already bound element and then disabling leaves it not draggable with one set of listeners still attached |
| Draggable.DragTrace | src/draggable.ts:208 | a drag along 'x' moves only x, and after pointerup `isDragging` reads true, as written |
| Worker.DepsParser | src/web/worker.ts:20-27 | no dependencies give ''; otherwise one `importScripts(...)` call with the quoted dependencies joined by commas |
| Worker.ParseJoinQuoted | src/web/worker.ts:25-26 | when no dependency contains a quote, the quoted list reads back as exactly the dependencies, in order |
| Worker.DepsParserReadsBack | src/web/worker.ts:20-27 | when no dependency contains a quote, the generated code reads back as exactly the dependencies, in order; no dependencies give '' |
| Worker.WebWorkerFn.constructor | src/web/worker.ts:95-114 | the status starts PENDING, and the setup call to terminate finds no worker and changes nothing |
| Worker.WebWorkerFn.Terminate | src/web/worker.ts:103-112 | with no worker nothing changes; otherwise the worker, promise and timer are dropped and the given status is set |
| Worker.WebWorkerFn.Run | src/web/worker.ts:150-165 | refused iff the status is RUNNING, changing nothing; otherwise a new worker is created, the timeout scheduled when set and non-zero, the promise stored and the status set to RUNNING |
| Worker.WebWorkerFn.OnMessage | src/web/worker.ts:123-136 | a SUCCESS message resolves and ends in SUCCESS; any other tag rejects and ends in ERROR; the worker is cleared either way |
| Worker.WebWorkerFn.OnError | src/web/worker.ts:138-142 | rejects, clears the worker and ends in ERROR |
| Worker.WebWorkerFn.OnTimeout | src/web/worker.ts:144-146 | the worker is cleared and the status becomes TIMEOUT_EXPIRED |
| Worker.TimeoutThenRerun | src/web/worker.ts:144-158 | after a timeout a new run is accepted and gets a new worker |
| Worker.RunWhileRunning | src/web/worker.ts:150-156 | a second run while the first is running is refused and the status stays RUNNING |
| Theme.IsDark | src/web/color-mode.ts:110-119 | dark iff the mode is 'dark', or the mode is 'auto' and the preference is dark; 'light' is never dark |
| Theme.IsDarkCases | src/web/color-mode.ts:110-119 | 'auto' follows the preference, 'light' is not dark, 'dark' is dark |
| Theme.ModeName | src/web/color-mode.ts:131 | the name written is 'dark' exactly when dark and 'light' exactly when light |
| Theme.Resolve | src/web/color-mode.ts:98-105 | defaults: mode 'auto', selector 'html', attribute 'class', transitions disabled; given options are taken as is |
| ColorMode.ClassThemeExact | src/web/color-mode.ts:132-134 | afterwards exactly one of 'light' and 'dark' is present, the one naming the mode, and every other class is untouched |
| ColorMode.ClassThemeLastWins | src/web/color-mode.ts:132-134 | applying one theme after another leaves the classes the last one gives |
| ColorMode.Apply | src/web/color-mode.ts:121-144 | without an element nothing changes and onChanged is not called; otherwise the classes or the named attribute, and with colorScheme the style's colour scheme, take the mode name, and onChanged receives isDark |
| ColorMode.ColorModeHook.constructor | src/web/color-mode.ts:97-119 | the options take their defaults, the mode starts at initialMode and the memo agrees with mode and preference |
| ColorMode.ColorModeHook.RunEffect | src/web/color-mode.ts:121-144 | one run of the render effect with the hook's settings and current isDark |
| ColorMode.ColorModeHook.SetMode | src/web/color-mode.ts:108-121 | the memo is recomputed from the new mode; the effect runs only when isDark changed |
| ColorMode.ColorModeHook.SetPreferredDark | src/web/color-mode.ts:107-121 | the preference is tracked: under 'auto' isDark follows it, and the effect runs only when isDark changed |
| ColorMode.UseColorMode | src/web/color-mode.ts:97-147 | the hook is created and its render effect runs once |
| ColorMode.DefaultTrace | src/web/color-mode.ts:97-144 | with the defaults, a dark preference replaces 'light' by 'dark' on the root and keeps its other classes; switching to 'light' swaps it back |
| Dark.DarkClassesExact | src/web/dark.ts:101-102 | 'dark' is present exactly when dark, and every other class, 'light' included, is untouched |
| Dark.AttributeIgnoresValue | src/web/dark.ts:103-105 | another attribute is set to 'dark' for both values, so light and dark leave the same attributes |
| Dark.ApplyDark | src/web/dark.ts:91-109 | without an element nothing changes and onChanged is not called; otherwise the class list or the attribute is updated and onChanged receives the value |
| Dark.DarkHook.constructor | src/web/dark.ts:68-89 | defaults 'auto', 'html', 'class', transitions disabled; the memo is evaluated with the preference at creation |
| Dark.DarkHook.RunEffect | src/web/dark.ts:91-109 | one run of the effect with the hook's settings and current isDark |
| Dark.DarkHook.SetMode | src/web/dark.ts:78-89 | setting the current mode again changes nothing; otherwise the memo re-runs with the preference as it is now, and the effect runs only when isDark changed |
| Dark.DarkHook.SetPreferredDark | src/web/dark.ts:80-83 | the preference is read untracked, so neither the memo nor the effect runs |
| Dark.UseDark | src/web/dark.ts:68-112 | the hook is created and its effect runs once |
| Dark.StalePreferenceTrace | src/web/dark.ts:80-89 | under 'auto' a preference turning dark leaves isDark false until the mode changes |
| Dark.AttributeTrace | src/web/dark.ts:103-105 | with a data attribute, switching to light still leaves it reading 'dark' |
| Dom.TagElement.constructor | src/resource-tag.ts:64 | a new element has neither `src` nor text content |
| Dom.Head.AppendChild | src/resource-tag.ts:73 | appending moves the element to the end of the head, where it appears once |
| Dom.Head.RemoveIfPresent | src/resource-tag.ts:77 | the element is removed when the head holds it; otherwise the head is unchanged |
| Tags.Write | src/resource-tag.ts:71-74 | the chosen property ends up equal to the content; the write and the append happen exactly when it differed; the other property is untouched |
| Tags.WriteTwice | src/web/external.ts:71-74 | a second run with the same content writes nothing, so the head is as after the first |
| ResourceTag.SlashAfterRunSpec | src/resource-tag.ts:69 | the scan from i succeeds iff a '/' follows a run of token characters starting at i |
| ResourceTag.LooksLikeUrl | src/resource-tag.ts:69 | content starting with '/' matches; a match contains a '/'; content whose first character is neither '/' nor a word character never matches |
| ResourceTag.LooksLikeUrlIsPattern | src/resource-tag.ts:69 | the scanner accepts exactly the strings the regular expression matches: '/' after 'http:', 'https:', a word character and one or more token characters, or at the start |
| ResourceTag.ChooseProp | src/resource-tag.ts:69 | a style always uses textContent; a script uses src iff its content matches the pattern |
| ResourceTag.UrlExamples | src/resource-tag.ts:69 | 'https://…', root-relative and host-first paths use src; a style path does not |
| ResourceTag.RelativeExamples | src/resource-tag.ts:69 | './app.js' and 'a/app.js' use textContent |
| ResourceTag.InlineCall | dev/App.tsx:22 | script content starting with `console.log(` uses textContent |
| ResourceTag.Render | src/resource-tag.ts:66-75 | the effect writes the chosen property and re-appends the element only when the property differs from the content |
| ResourceTag.UseResourceTag | src/resource-tag.ts:59-81 | a new element gets the content; non-empty content appends it at the end of the head |
| ResourceTag.Cleanup | src/resource-tag.ts:76-78 | removes the element when the head contains it and is otherwise a no-op |
| ResourceTag.InjectThenCleanup | src/resource-tag.ts:64-78 | injecting a tag and cleaning it up leaves the head as it was |
| External.ChooseProp | src/web/external.ts:69 | a style always uses textContent; a script uses src iff its content starts with 'http' |
| External.ChoicesDiffer | src/web/external.ts:69 | a root-relative path uses src only via `useResourceTag`; content merely starting with 'http' uses src only via `useExternal` |
| External.Render | src/web/external.ts:66-75 | the effect writes the chosen property and re-appends the element only when it differs |
| External.UseExternal | src/web/external.ts:59-83 | a new element gets the content; non-empty content appends it at the end of the head |
| External.Cleanup | src/web/external.ts:76-80 | removes the element only if the head contains it |

## Left out

- The Solid runtime (`createEffect`, `createComputed`, `createRenderEffect`, `createReaction`, `createMemo`, `batch`, `untrack`, `onCleanup`) is not modelled. Effect runs are explicit method calls, and `watch`, `watchImmediate` and `watchRendered` share one `Trigger`, since they differ only in scheduling.
- `eventFilter` (debounce, throttle) is timer-driven foreign code and is not modelled. The count bound is claimed only for unfiltered sessions.
- Registering the callback's returned cleanup (src/watch.ts:116-119) is a runtime service and is not modelled. The same holds for `tryOnCleanup` registrations; the cleanups themselves are modelled where they have logic.
- Watch.Watcher.Trigger: the callback is assumed to return. In the source a callback that throws has already been counted (`callTimes` goes up first) but `oldValue` is not updated, so the next call's old value predates the throwing call; the call log and the old-value chain do not cover that path.
- Watch.Watcher.IgnoreUpdate: the updater's batched changes are reduced to at most one effect run with the final value.
- `watchOnce`'s effect options are not modelled.
- Objects.JsObject / Tracker.Property.Set: own data properties only. Accessors and inherited properties (such as `currentTime` on an `Audio` element, the doc example) are not modelled, so the read-back after a default write and the undefined read of a missing key hold for plain objects only.
- Tracker.Property.Set: the extra signal options spread onto the trigger signal are not modelled, and a custom setter is reduced to the object state it leaves behind.
- RefSignal.Cell.Set: `pathGet` and `pathSet` from `object-path-access` are not part of this model. They are a pair of functions over the object state, and read-back holds only when that pair satisfies put-then-get.
- The `onChange` effect of `createToggle` is not modelled.
- ArraySignal.ArrayState.Set: a JavaScript array is a class holding a sequence, not a Dafny `array`, because the patchers resize it (`push`, `pop`). A patcher is modelled by the contents it leaves, so aliasing inside the patcher is not captured.
- Props.UseProps: the memos are represented by their key, so their lazy re-evaluation is not modelled. That both returned accessors give the same objects on every call is not stated, since `pick` and `rest` are values here.
- `createComponent`, `render` and JSX are not modelled. The mounted tree is a datatype, and the root element is an optional handle.
- Draggable: coordinates are integers, not floating-point numbers. `getBoundingClientRect` is a parameter. Pointer capture, `addStyle`, `listenerOptions`, `handleEl` and the `isDraggable` trigger signal are not modelled. `onMove` and `onEnd` are returned values.
- Worker: the blob code generation (`jobRunner`, `createWorkerBlobUrl`), the `Worker` object, `postMessage`, `URL.revokeObjectURL`, the development console message and the promise values are not modelled. `customWindow` is assumed present, and a worker is a number.
- ColorMode and Dark: the disable-transition style tag, the media query listener, and selector accessors are not modelled. The element `querySelector` returns is a parameter of each effect run.
- ResourceTag.Render: the comparison is against the stored string. A browser's `src` getter returns the resolved absolute URL, so relative script content would be rewritten and re-appended on every run; that is not captured. The options spread onto the element (`spread`) are not modelled.
- External.Render: the same `src` resolution and option spreading are not captured.
