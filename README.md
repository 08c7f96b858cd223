# React patterns demos: a verified model of their stateful logic

The repository is a set of small React demos of UI patterns. Most of it only
renders. This project models the demos that keep state, as small state machines
and pure projections:

- the compound **dropdown** and its document listeners (`Dropdown`);
- the **toast** list of the portal demo, with its id counter and removal timers (`Toasts`);
- the **contact form** of the composition demos (`ContactForm`), and the two ways it is
  rendered (`WithComposition`, `WithoutComposition`);
- the render-prop **table** projection (`Table`);
- the compound **tabs** (`Tabs`);
- the **auth gate** higher-order component (`Auth`);
- the **loading** higher-order component (`Loading`).

Component state that the source updates through `useState` is a class field.
Timers and DOM listeners are not run: a scheduled timer is a "pending" field,
an attached listener an "attached" field, and a key press, pointer press or
timer expiry is a method call. An effect is taken to run as soon as the state
it depends on changes, so a listener's flag is always in step with that state.
Rendering is a pure function from the state to a small view datatype that
keeps only what encodes state: the active tab, the error borders, the toast
class suffix, and what is shown or hidden.

The handlers of src/routes/composition/with.jsx (lines 36-59) and
src/routes/composition/without.jsx (lines 3-26) are identical. They are
modelled once, in module `ContactForm`. Only the rendering differs, and the
two files differ in which error drives the email input's red border.

`wrappers.dfy` holds the `Option` and `Result` datatypes the other modules use.

## Model

| member | source | states |
|---|---|---|
| `Dropdown.Apply` | src/routes/compound/exercise/solution.jsx:20-22 | `open` leaves the dropdown open and `close` leaves it closed, whatever the state before; `toggle` negates it |
| `Dropdown.ReplayIsXorFold` | src/routes/compound/exercise/solution.jsx:17-22 | after any sequence of helper calls from any start, the flag is the value of the last `open`/`close` (or the start value), flipped once per later `toggle` |
| `Dropdown.EndsClosed` | src/routes/compound/exercise/solution.jsx:22 | a call sequence ending in `close` leaves the dropdown closed, whatever came before |
| `Dropdown.CloseIsIdempotent` | src/routes/compound/exercise/solution.jsx:22 | on a closed dropdown, however it came to be closed (start state, `close` or `toggle`), one more `close` changes nothing |
| `Dropdown.Menu` | src/routes/compound/exercise/solution.jsx:70-78 | the menu renders nothing exactly when closed, and its children unchanged when open |
| `Dropdown.Dropdown.constructor` | src/routes/compound/exercise/solution.jsx:16-43 | a mounted dropdown starts closed with the keydown listener attached and no mousedown listener |
| `Dropdown.Dropdown.SetIsOpen` | src/routes/compound/exercise/solution.jsx:35-43 | a state change re-runs the `[isOpen]` effect: the mousedown listener is attached exactly while mounted and open; a change after unmount is ignored |
| `Dropdown.Dropdown.Toggle` | src/routes/compound/exercise/solution.jsx:20 | the flag becomes `Apply(old, Toggle)`; the listener invariant is kept |
| `Dropdown.Dropdown.Open` | src/routes/compound/exercise/solution.jsx:21 | the flag becomes true; the listener invariant is kept |
| `Dropdown.Dropdown.Close` | src/routes/compound/exercise/solution.jsx:22 | the flag becomes false; the listener invariant is kept |
| `Dropdown.Dropdown.KeyDown` | src/routes/compound/exercise/solution.jsx:25-31 | a key press closes the dropdown exactly when the key is "Escape" and the listener is attached; any other key changes nothing |
| `Dropdown.Dropdown.MouseDown` | src/routes/compound/exercise/solution.jsx:35-43 | a pointer press closes the dropdown exactly when the listener is attached (so the menu is open), the menu is rendered and the target is outside it; a press inside changes nothing |
| `Dropdown.Dropdown.ItemClick` | src/routes/compound/exercise/solution.jsx:84-90 | `onSelect` gets the item's value once if it is given, and none otherwise; the dropdown is then closed, unless `onSelect` threw, in which case the state is untouched |
| `Dropdown.Dropdown.Unmount` | src/routes/compound/exercise/solution.jsx:25-43 | unmounting removes both document listeners; later events and state changes have no effect |
| `Toasts.KindOrDefault` | src/routes/portal/exercise/solution.jsx:32 | a toast without a type is an "info" toast; a given type is kept |
| `Toasts.WithoutId` | src/routes/portal/exercise/solution.jsx:38 | the filtered list holds exactly the entries whose id differs from the removed one, and an id-ordered list stays id-ordered |
| `Toasts.WithoutAbsentId` | src/routes/portal/exercise/solution.jsx:38 | removing an id that no entry carries leaves the list unchanged |
| `Toasts.WithoutIdIdempotent` | src/routes/portal/exercise/solution.jsx:37-39 | a second removal of the same id changes nothing |
| `Toasts.IdOrderedListsAreEqual` | src/routes/portal/exercise/solution.jsx:34-38 | two id-ordered lists with the same entries are equal, so the filtered list is the other entries in their original relative order |
| `Toasts.ColorSuffix` | src/routes/portal/exercise/solution.jsx:72-79 | success, error and warning map to a suffix equal to the type; every other type, "info" included, has no suffix |
| `Toasts.ClassName` | src/routes/portal/exercise/solution.jsx:79 | a known type gives class "toast-message " plus the type; any other gives "toast-message undefined" |
| `Toasts.Render` | src/routes/portal/exercise/solution.jsx:47-54 | one view per toast, in list order, each with the toast's message and class |
| `Toasts.UseToast` | src/routes/portal/exercise/solution.jsx:62-66 | without a provider the hook fails with "useToast must be used within <ToastProvider>"; with one it returns the context |
| `Toasts.ToastIdSource.constructor` | src/routes/portal/exercise/solution.jsx:23 | the module counter starts at 0 with no id handed out |
| `Toasts.ToastIdSource.Take` | src/routes/portal/exercise/solution.jsx:33 | the id is the counter's value, never handed out before; the counter then grows by one |
| `Toasts.ToastProvider.constructor` | src/routes/portal/exercise/solution.jsx:28-29 | a provider starts with no toasts and no pending timer |
| `Toasts.ToastProvider.ShowToast` | src/routes/portal/exercise/solution.jsx:32-40 | the new toast, with the next id, is appended after all earlier entries and its timer is scheduled; the shared counter records that id as issued and moves on by one; ids stay strictly increasing and each toast keeps exactly one pending timer |
| `Toasts.ToastProvider.TimerFired` | src/routes/portal/exercise/solution.jsx:37-39 | the expired id's entries are filtered out and nothing else changes; the invariant is kept |
| `ContactForm.WithField` | src/routes/composition/without.jsx:7-10 | a change sets only the named field; the other field keeps its value |
| `ContactForm.KeyCount` | src/routes/composition/with.jsx:54 | the error object has at most two keys, and none exactly when it is the empty object `{}` |
| `ContactForm.Validate` | src/routes/composition/without.jsx:15-17 | each field has its fixed message exactly when it is the empty string; a whitespace-only field has none |
| `ContactForm.ValidateAccepts` | src/routes/composition/without.jsx:15-21 | no key is set exactly when both fields are non-empty, and every error set is truthy |
| `ContactForm.ContactForm.constructor` | src/routes/composition/with.jsx:37-38 | the form starts with both fields empty and no errors |
| `ContactForm.ContactForm.HandleChange` | src/routes/composition/with.jsx:40-43 | the new form data is the old one with the named field set; errors are unchanged |
| `ContactForm.ContactForm.HandleSubmit` | src/routes/composition/with.jsx:45-59 | a submit succeeds exactly when both fields are non-empty; on success the form resets and errors clear; otherwise the data is kept and the errors are the validation result |
| `WithComposition.FormField` | src/routes/composition/with.jsx:12-14 | a form field's content is its render function applied to the field's own name |
| `WithComposition.View` | src/routes/composition/with.jsx:66-110 | the form renders two items, the name field then the email field, each showing its field's current value |
| `WithComposition.ViewAsWritten` | src/routes/composition/with.jsx:66-110 | each `FormField` passes its own name to its render function; each item shows its field's value and message; both inputs' borders follow the name error |
| `WithComposition.EmailErrorWithoutBorder` | src/routes/composition/with.jsx:101-107 | after submitting a name without an email, the email item shows "Email is required." but no error border |
| `WithComposition.CorrectedBorderFollowsOwnField` | src/routes/composition/with.jsx:78-81 | with the email border driven by its own error, after a submit each input is red exactly when its field was empty, and exactly when it shows a message |
| `WithoutComposition.Paragraph` | src/routes/composition/without.jsx:50-52 | an error paragraph is rendered exactly when the error is truthy, and shows that error |
| `WithoutComposition.View` | src/routes/composition/without.jsx:40-74 | each input shows its field's value, has the error border exactly when its own error is truthy, and has a paragraph exactly when it has the border |
| `WithoutComposition.FeedbackAfterSubmit` | src/routes/composition/without.jsx:46-74 | after a submit each input is red exactly when its field was empty, and then shows that field's fixed message |
| `Table.Headers` | src/routes/render-props/exercise/solution.jsx:6 | one header per column, in column order, equal to the column's header |
| `Table.Cells` | src/routes/render-props/exercise/solution.jsx:10 | one cell per column, each the row's value under the column's accessor, or undefined when the key is missing |
| `Table.Rows` | src/routes/render-props/exercise/solution.jsx:9-11 | one projected row per data row, in data order, with that row's cells |
| `Table.Project` | src/routes/render-props/exercise/solution.jsx:6-11 | the computed props have one header per column, one row per data row, and one cell per column in every row |
| `Table.Table` | src/routes/render-props/exercise/solution.jsx:4-15 | the component's output is its render function applied once to the headers and rows computed from the columns and data |
| `Table.ProjectIsGrid` | src/routes/render-props/exercise/solution.jsx:6-11 | the projection has as many headers as columns and as many rows as data rows, each row has one cell per column, and cell (i, j) is `data[i][columns[j].accessor]` or undefined |
| `Table.RowsDistribute` | src/routes/render-props/exercise/solution.jsx:9-11 | projecting two batches of data and concatenating gives the projection of the concatenation, so rows follow data order |
| `Table.TableHandsProjection` | src/routes/render-props/exercise/solution.jsx:14 | the render function receives exactly the computed headers and rows, and its result is returned |
| `Tabs.IsActive` | src/routes/compound/index.jsx:29-31 | a tab has the active styling exactly when its index equals the stored active index |
| `Tabs.Panel` | src/routes/compound/index.jsx:43 | the shown panel is `children[activeTab]` when the index is in range, and nothing otherwise |
| `Tabs.AtMostOneActive` | src/routes/compound/index.jsx:29-31 | among tabs with distinct indices, at most one has the active styling |
| `Tabs.Tabs.constructor` | src/routes/compound/index.jsx:7 | the first tab is active at the start |
| `Tabs.Tabs.Click` | src/routes/compound/index.jsx:26 | clicking tab `i` makes `i` the active index, so a second click on it changes nothing |
| `Auth.TrimStart` | src/routes/hoc/exercise/solution.jsx:23 | the result is a suffix of the input, all of whose cut-off characters are whitespace and whose first character is not; it is empty exactly when the input is blank |
| `Auth.TrimEnd` | src/routes/hoc/exercise/solution.jsx:23 | the result is a prefix of the input, all of whose cut-off characters are whitespace and whose last character is not; it is empty exactly when the input is blank |
| `Auth.Trim` | src/routes/hoc/exercise/solution.jsx:23 | `email.trim()` is no longer than the email, and when non-empty neither starts nor ends with whitespace |
| `Auth.TrimEmptyIffBlank` | src/routes/hoc/exercise/solution.jsx:23 | `email.trim()` is empty exactly when every character of the email is whitespace |
| `Auth.AuthenticatedComponent.constructor` | src/routes/hoc/exercise/solution.jsx:14-17 | each instance starts unauthenticated with an empty email |
| `Auth.AuthenticatedComponent.ChangeEmail` | src/routes/hoc/exercise/solution.jsx:39 | the email becomes the input value; the auth flag is unchanged |
| `Auth.AuthenticatedComponent.HandleLogin` | src/routes/hoc/exercise/solution.jsx:21-26 | afterwards the instance is authenticated exactly when it already was or the email is not blank, so the flag never goes back to false; only this instance changes |
| `Auth.AuthenticatedComponent.View` | src/routes/hoc/exercise/solution.jsx:30-49 | the login form, with the current email, exactly while unauthenticated; otherwise the wrapped component with the props unchanged |
| `Loading.DelayOrDefault` | src/routes/hoc/with.jsx:3 | without a delay argument the delay is 2000; a given delay is kept |
| `Loading.Title` | src/routes/hoc/with.jsx:18 | `props.title` is the props' title when they have one, and undefined otherwise |
| `Loading.WithLoading.constructor` | src/routes/hoc/with.jsx:3-13 | a mounted instance starts loading, with its one timer pending, and the given or default delay |
| `Loading.WithLoading.TimerFires` | src/routes/hoc/with.jsx:8-10 | a pending timer ends loading; a cleared or already fired timer changes nothing; nothing ever sets loading back to true |
| `Loading.WithLoading.Unmount` | src/routes/hoc/with.jsx:12 | unmounting clears the pending timer, so the loading flag never changes afterwards |
| `Loading.WithLoading.View` | src/routes/hoc/with.jsx:15-24 | the title and a spinner exactly while loading; afterwards the wrapped component with the props unchanged |

## Findings

| source | as written | input that shows it | evidently intended | confidence | as-written member | corrected member |
|---|---|---|---|---|---|---|
| src/routes/composition/with.jsx:101-104 | the email input's border class tests the name error | name "Ada", email "" and submit: the email message is shown but the email border stays grey | the email border follows the email error, as the name border follows the name error and as src/routes/composition/without.jsx:68-70 does | high (not executed) | `WithComposition.EmailErrorWithoutBorder` | `WithComposition.CorrectedBorderFollowsOwnField` |

The as-written view (`WithComposition.View`, stated by `WithComposition.ViewAsWritten`) keeps the source's behaviour; `WithComposition.ViewCorrected` is the corrected rendering.

## Left out

- Rendering itself: JSX layout, CSS classes other than the state-encoding bits, the React reconciler, and `createPortal` with the `toast-root` node it mounts into.
- Real time: timers are fields and their expiry is a method call. The model does not order expiries by their 3000 ms or `delay` deadlines; any pending timer may fire next. `Toasts.AutoDismissMs` and `Loading.WithLoading.delay` record the delays only.
- Effect timing: React runs an effect after the commit that changed its dependency. The model runs it in the same step, so there is no window in which a listener is out of step with `isOpen`.
- The dropdown's menu ref and `contains`: whether the menu is rendered and whether a press landed inside it are boolean inputs of `MouseDown`.
- The dropdown's `onSelect` is modelled only by how it ends (absent, returns, throws). Any state it changes in the application is outside the model.
- Toast provider unmounting: the source cancels no toast timer on unmount, and React drops a state update on an unmounted provider. The model has no provider unmount.
- Several providers share the module counter `Toasts.ToastIdSource`, and a show on one keeps the others' invariants. The model does not state, as one invariant over all providers, that no id is on screen in two providers at once.
- JavaScript property lookup through the prototype chain: a toast type or table accessor such as "toString" would find an inherited member. The model treats the lookup table and data rows as plain maps.
- `Tabs.Panel` takes the panels as a sequence. React passes a single child as an element, not an array, and indexing it would show nothing. That case is not modelled.
- `handleChange` is modelled for the two inputs' names only; a target with another name would add a new key to the form data.
- Side effects without state: `console.log` on submit and select, and `preventDefault`.
- The other demos: the exchange-rate fetch and number formatting of src/routes/render-props/index.jsx, route wiring in src/App.jsx and src/routes/home.jsx, the static cards of src/routes/composition/exercise/solution.jsx, and the single-flag modals of src/routes/portal/with.jsx and src/routes/portal/without.jsx.
