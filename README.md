# UI composables of a small post/author manager, modelled in Dafny

This project models the state-management core of a browser application that manages blog posts and authors. The core has four parts:

- **The overlay registry** (`overlay.dfy`, module `Overlay`). A shared, ordered list of overlay descriptors: modals and dialogs with visibility and mount flags, a props bag, an initial-props snapshot, a destroy-on-close flag and at most one pending promise resolver. Its operations are `create`, `open`, `close`, `patch`, `replace` and `unMount`. Each operation on an existing overlay (`open`, `close`, `patch`, `replace`, `unMount`) looks its id up in the list and fails with "Overlay not found" when the id is absent; `create` takes no id and never fails. Each operation is a step function over the list (`OpenStep`, `CloseStep`, ...). The class `Registry` makes the same updates in place, one field at a time as the source does, and each of its methods is proved equal to its step function. The lemmas relate the steps to one another:
  - open then close settles exactly the promise that open returned;
  - a second close settles nothing;
  - open with no props after a patch, or after a replace, restores the snapshot;
  - unMount of a destroy-on-close overlay makes every later operation on that id fail, because no later operation, create included, brings a removed id back.
- **The confirm dialog** (`dialog.dfy`, module `Dialog`). A builder over the registry. `confirm(options)` creates one overlay and then replaces its props with the options plus an `onConfirm` and an `onDismiss` handler. Two callback slots start as no-ops; registering again overwrites a slot. A handler runs the callback that is in its slot when it fires. Only if that callback completes does the handler close the overlay.
- **The snackbar** (`snackbar.dfy`, module `Snackbar`). One notification slot. `show` merges the given options over the defaults (message `""`, duration 5000, type `info`) and replaces the previous state.
- **String utilities** (`string_utils.dfy`, module `StringUtils`). `getInitials`, `truncate` and `wordCount` as recursive functions over strings. They come with split/join round trips and characterisations of the results.

Modelling choices:
- An overlay id (a fresh `Symbol` in the source) is a number drawn from a counter.
- The promise that `open` returns is a *ticket* drawn from a second counter. A descriptor's pending resolver is the ticket it will settle. `close(v)` returns `Delivery(ticket, v)` when a resolver is pending.
- Props are immutable maps from keys to `Value`s. A function value is `Fn(name, owner)`, which stands for its identity.
- `Common` holds the `Option` type used for the source's optional (`undefined`-able) fields and parameters.

## Model

| member | source | states |
|---|---|---|
| `Overlay.Find` | src/composables/ui/useOverlay.ts:113-121 | the lookup gives the first position holding the id, or None exactly when no descriptor has that id |
| `Overlay.NewDescriptor` | src/composables/ui/useOverlay.ts:33-43 | a new descriptor is visible and mounted exactly when `defaultOpen` is true (false when omitted); `destroyOnClose` defaults to false; `props` is the given props or empty; `initialProps` equals `props`; the options' own `initialProps` field is ignored; no resolver is pending |
| `Overlay.CreateStep` | src/composables/ui/useOverlay.ts:32-45 | create appends exactly one descriptor, the one built from the options, at the end; the earlier descriptors and their order are unchanged; every other id is found where it was, and a fresh id is found at the new last position |
| `Overlay.Merge` | src/composables/ui/useOverlay.ts:108-110 | after patching, the keys are the old keys plus the patch's keys; a patched key holds the patch's value; every other key keeps its value |
| `Overlay.OpenStep` | src/composables/ui/useOverlay.ts:62-80 | fails with NotFound and leaves the list unchanged exactly when the id is absent; otherwise returns the new ticket, merges the given props or resets them to the snapshot, shows and mounts the overlay and makes the ticket its only pending promise; the snapshot, the id, the component, the destroy flag, every other descriptor and every lookup stay |
| `Overlay.CloseStep` | src/composables/ui/useOverlay.ts:82-92 | fails with NotFound and leaves the list unchanged exactly when the id is absent; otherwise hides the overlay, returns a delivery exactly when a promise was pending (that ticket with the given value) and clears it; mount flag, props, snapshot, every other descriptor and every lookup stay |
| `Overlay.PatchStep` | src/composables/ui/useOverlay.ts:105-111 | fails with NotFound and leaves the list unchanged exactly when the id is absent; otherwise overwrites exactly the keys given and keeps every other key; the snapshot, the flags, the pending ticket, every other descriptor and every lookup stay |
| `Overlay.ReplaceStep` | src/composables/ui/useOverlay.ts:55-60 | fails with NotFound and leaves the list unchanged exactly when the id is absent; otherwise props and snapshot both become the given props; the flags, the pending ticket, every other descriptor and every lookup stay |
| `Overlay.UnMountStep` | src/composables/ui/useOverlay.ts:94-103 | fails with NotFound and leaves the list unchanged exactly when the id is absent; a destroy-on-close descriptor is cut out and the others keep their order; any other descriptor only loses its mount flag, stays in place, and every lookup is unchanged |
| `Overlay.AssignEntries` | src/composables/ui/useOverlay.ts:105-111 | the loop that writes the entries one key at a time produces exactly the merged props |
| `Overlay.Registry.constructor` | src/composables/ui/useOverlay.ts:29 | the shared list starts empty and consistent |
| `Overlay.Registry.Create` | src/composables/ui/useOverlay.ts:32-53 | appends exactly the descriptor `CreateStep` builds; its id is the counter value, differs from every id already present, and the counter moves past it, so no id is ever drawn twice; the list invariants (unique ids) are kept |
| `Overlay.Registry.Open` | src/composables/ui/useOverlay.ts:62-80 | merges the given props, or resets props to `initialProps` when none are given; sets visible and mounted; installs a fresh ticket that differs from every pending one, overwriting an earlier one; fails with NotFound and changes nothing for an unknown id; the ticket counter moves on by one exactly when open succeeds, so no ticket is ever handed out twice, and a failed open leaves it unchanged |
| `Overlay.Registry.Close` | src/composables/ui/useOverlay.ts:82-92 | hides the overlay; if a resolver is pending, hands out its ticket with the given value and clears the slot; mount flag and props untouched; fails with NotFound for an unknown id |
| `Overlay.Registry.Patch` | src/composables/ui/useOverlay.ts:105-111 | merges the patch into the props of the found descriptor, nothing else; fails with NotFound for an unknown id |
| `Overlay.Registry.Replace` | src/composables/ui/useOverlay.ts:55-60 | sets both props and initialProps to the given props; fails with NotFound for an unknown id |
| `Overlay.Registry.UnMount` | src/composables/ui/useOverlay.ts:94-103 | clears the mount flag; removes the descriptor only when it is destroyed on close, keeping the others in order; fails with NotFound for an unknown id; never removes a descriptor that is kept on close |
| `Overlay.CreateKeeps` | src/composables/ui/useOverlay.ts:35-45 | appending a descriptor with a fresh id loses no descriptor that is kept on close |
| `Overlay.AppendFind` | src/composables/ui/useOverlay.ts:45 | appending a descriptor leaves the lookup of every other id unchanged and finds a fresh id at the end |
| `Overlay.RemoveFind` | src/composables/ui/useOverlay.ts:100-101 | splicing out one descriptor of a list with unique ids removes that id and shifts the later positions down by one |
| `Overlay.RemoveKeeps` | src/composables/ui/useOverlay.ts:99-102 | removing a destroy-on-close descriptor keeps ids unique and keeps every descriptor that is kept on close |
| `Overlay.UnknownIdFails` | src/composables/ui/useOverlay.ts:113-121 | every operation on an id not in the list fails with NotFound and leaves the list unchanged |
| `Overlay.OpenThenClose` | src/composables/ui/useOverlay.ts:62-92 | close after open settles exactly the ticket open returned, with exactly the value given to close; the overlay is hidden but still mounted, with its props as open left them |
| `Overlay.CloseTwice` | src/composables/ui/useOverlay.ts:88-91 | a second close settles nothing and changes nothing |
| `Overlay.OpenTwiceOrphansFirst` | src/composables/ui/useOverlay.ts:62-92 | whatever props each open is given, a second open before close replaces the pending ticket: close settles only the second promise, and when the first ticket was fresh no descriptor holds it any more |
| `Overlay.PatchThenOpenResets` | src/composables/ui/useOverlay.ts:62-71 | open with no props after a patch restores the snapshot, not the patched values; the snapshot is unchanged |
| `Overlay.ReplaceThenOpen` | src/composables/ui/useOverlay.ts:55-74 | after replace(p), open with no props yields props equal to p, with the overlay visible and mounted |
| `Overlay.UnMountDestroys` | src/composables/ui/useOverlay.ts:94-103 | unMount of a destroy-on-close descriptor removes it and keeps the others in order; afterwards open, close, patch, replace and unMount on its id all fail with NotFound |
| `Overlay.GoneStaysGone` | src/composables/ui/useOverlay.ts:32-121 | an id that was drawn and is no longer in the list stays absent after create (which draws a new id), open, close, patch, replace and unMount |
| `Overlay.UnMountThenCreate` | src/composables/ui/useOverlay.ts:32-121 | unMount of a destroy-on-close overlay followed by a create: the new id differs from the removed one, and open of the removed id fails with NotFound |
| `Dialog.WithHandlers` | src/composables/ui/useDialog.ts:36-46 | the replacing props are the options plus the two handler keys; every other option keeps its value |
| `Dialog.ConfirmStep` | src/composables/ui/useDialog.ts:14-49 | with a fresh id, confirm adds exactly one descriptor, at the end, keeps the earlier ones in order and finds the new id there; every other id is found where it was |
| `Dialog.ConfirmAppends` | src/composables/ui/useDialog.ts:14-49 | confirm first creates the overlay with the options as its props; after the replace, both props and initialProps are the options plus the handlers, and the overlay is hidden, unmounted and never destroyed |
| `Dialog.ConfirmDialog.constructor` | src/composables/ui/useDialog.ts:14-49 | both callback slots start as no-ops; the registry is changed exactly by the create followed by the replace; the dialog's id is the registry's id counter, which moves past it, so confirm never reuses the id of a removed overlay; the dialog records its options, and its validity includes that the overlay's snapshot is the options plus the handlers, since no exported operation can replace it |
| `Dialog.ConfirmDialog.OnConfirm` | src/composables/ui/useDialog.ts:21-24 | overwrites the confirm slot, leaves the dismiss slot, and returns the same builder |
| `Dialog.ConfirmDialog.OnDismiss` | src/composables/ui/useDialog.ts:25-28 | overwrites the dismiss slot, leaves the confirm slot, and returns the same builder |
| `Dialog.ConfirmDialog.Open` | src/composables/ui/useDialog.ts:29-32 | opens the dialog's overlay with no props, so props reset to the options-plus-handlers snapshot and it becomes visible and mounted; returns the same builder; the ticket counter moves on by one |
| `Dialog.ConfirmDialog.HandleConfirm` | src/composables/ui/useDialog.ts:38-41 | runs the confirm callback in the slot at firing time; closes the overlay only if the callback completes; otherwise the registry is unchanged |
| `Dialog.ConfirmDialog.HandleDismiss` | src/composables/ui/useDialog.ts:42-45 | runs the dismiss callback in the slot at firing time; closes the overlay only if the callback completes; otherwise the registry is unchanged |
| `Dialog.ConfirmDialog.RunThenClose` | src/composables/ui/useDialog.ts:38-45 | with no `finally`, a failing callback leaves the overlay as it was, and a completing one is followed by close with no value |
| `Dialog.Alert` | src/composables/ui/useDialog.ts:51 | alert changes nothing |
| `Dialog.LastRegistrationRuns` | src/composables/ui/useDialog.ts:21-41 | when two callbacks are registered, the second one after open, the handler runs the second |
| `Dialog.DefaultCallbackCloses` | src/composables/ui/useDialog.ts:15-41 | with no callback registered, confirm after open closes the dialog and settles exactly the promise open made, with no value; the props stay the options plus the handlers |
| `Dialog.FailingCallbackKeepsOpen` | src/composables/ui/useDialog.ts:38-41 | a failing confirm callback leaves the opened dialog visible and mounted |
| `Snackbar.MergeOptions` | src/composables/ui/useSnackbar.ts:26 | the merged message is the given one; an omitted duration becomes 5000 and an omitted type becomes info; supplied values win |
| `Snackbar.Shown` | src/composables/ui/useSnackbar.ts:24-33 | after show the slot is visible with the merged options, and nothing of the previous state remains |
| `Snackbar.Snackbar.constructor` | src/composables/ui/useSnackbar.ts:15-21 | the slot starts hidden with the default options `""`, 5000, info |
| `Snackbar.Snackbar.Show` | src/composables/ui/useSnackbar.ts:24-33 | the new state is the previous one with the merged options and visible |
| `Snackbar.ShownOptions` | src/composables/ui/useSnackbar.ts:15-32 | after show the snackbar is visible, carries the given message, and has every option set, to the supplied value or to the default |
| `Snackbar.ShownForgetsPrevious` | src/composables/ui/useSnackbar.ts:28-32 | the state after show does not depend on the state before: nothing is queued and nothing carries over |
| `Snackbar.ShownIdempotent` | src/composables/ui/useSnackbar.ts:24-33 | showing the same options twice gives the same state as showing them once |
| `Snackbar.ShowMessageOnly` | src/composables/ui/useSnackbar.ts:15-26 | showing only a message gives exactly the default options with that message |
| `StringUtils.UpperAll` | src/composables/ui/useStringUtils.ts:19 | upper-casing keeps the length and maps every character through the ASCII upper-case map |
| `StringUtils.PadEnd` | src/composables/ui/useStringUtils.ts:20 | padding reaches the target length, keeps the string as a prefix and fills with the pad character |
| `StringUtils.WordLength` | src/composables/ui/useStringUtils.ts:13 | the leading word has no whitespace and is followed by whitespace or the end of the text |
| `StringUtils.Tokens` | src/composables/ui/useStringUtils.ts:13 | every token is non-empty and free of whitespace |
| `StringUtils.GetInitials` | src/composables/ui/useStringUtils.ts:12-28 | the initials are always exactly two characters |
| `StringUtils.Split` | src/composables/ui/useStringUtils.ts:42 | splitting gives at least one piece, and no piece contains the separator |
| `StringUtils.Join` | src/composables/ui/useStringUtils.ts:45 | the joined text starts with the first word |
| `StringUtils.JoinLength` | src/composables/ui/useStringUtils.ts:45 | the joined text is exactly as long as all the words together plus one separator between each two |
| `StringUtils.JoinCount` | src/composables/ui/useStringUtils.ts:45 | joining words that do not contain the separator puts exactly one separator fewer than there are words into the text |
| `StringUtils.Truncate` | src/composables/ui/useStringUtils.ts:38-46 | a missing or empty text gives `""`; a missing or zero limit gives the text unchanged |
| `StringUtils.WordCount` | src/composables/ui/useStringUtils.ts:48-51 | 0 for a missing or empty text; otherwise the number of spaces plus one |
| `StringUtils.SplitLength` | src/composables/ui/useStringUtils.ts:50 | the number of pieces is the number of separators plus one |
| `StringUtils.JoinSplit` | src/composables/ui/useStringUtils.ts:42-45 | joining the pieces with the separator restores the text |
| `StringUtils.SplitJoin` | src/composables/ui/useStringUtils.ts:42-45 | splitting pieces joined by a separator they do not contain gives the pieces back |
| `StringUtils.TruncateKeepsShortText` | src/composables/ui/useStringUtils.ts:42-45 | a text with at most n pieces comes back unchanged, with no ellipsis |
| `StringUtils.TruncateDropsWords` | src/composables/ui/useStringUtils.ts:42-45 | a text with more than n pieces becomes its prefix that ends just before a space and holds exactly n pieces, followed by `...` |
| `StringUtils.TruncateOfJoin` | src/composables/ui/useStringUtils.ts:42-45 | truncating separator-free words joined by single spaces to fewer words than there are keeps exactly the first n words, joined the same way, followed by `...` |
| `StringUtils.TokensSkipSpace` | src/composables/ui/useStringUtils.ts:13 | leading whitespace, which trim removes, does not change the tokens |
| `StringUtils.TokensOfWordThen` | src/composables/ui/useStringUtils.ts:13 | a word followed by whitespace or by nothing is tokenised into that word followed by the tokens of the rest |
| `StringUtils.TokensOfSpaced` | src/composables/ui/useStringUtils.ts:13 | a name made of non-empty whitespace-free words, separated by non-empty whitespace runs and optionally surrounded by whitespace, tokenises into exactly those words in order |
| `StringUtils.InitialsOfBlank` | src/composables/ui/useStringUtils.ts:13-15 | an empty or whitespace-only name gives two spaces |
| `StringUtils.InitialsOfOneWord` | src/composables/ui/useStringUtils.ts:13-21 | a one-word name, with any whitespace around it, gives the word's first two characters upper-cased, or its one character upper-cased and padded with a space |
| `StringUtils.InitialsOfWord` | src/composables/ui/useStringUtils.ts:17-21 | a name that is a single word of two or more letters gives its first two letters upper-cased |
| `StringUtils.InitialsOfWords` | src/composables/ui/useStringUtils.ts:13-27 | a name of two or more words, with any whitespace between and around them, gives the upper-cased first character of the first word followed by that of the last word |
| `StringUtils.InitialsOfTwoWordsExample` | src/composables/ui/useStringUtils.ts:7 | "John Doe" gives "JD" |
| `StringUtils.InitialsOfWideSpacingExample` | src/composables/ui/useStringUtils.ts:13-27 | " John \t Doe  " gives "JD": extra spaces and tabs make no difference |
| `StringUtils.InitialsOfJohnExample` | src/composables/ui/useStringUtils.ts:8 | "John" gives "JO" |
| `StringUtils.InitialsOfJohnathanExample` | src/composables/ui/useStringUtils.ts:9 | "Johnathan" gives "JO" |
| `StringUtils.InitialsOfThreeWordsExample` | src/composables/ui/useStringUtils.ts:10 | "John Jacob Smith" gives "JS" |
| `StringUtils.TruncateExamples` | src/composables/ui/useStringUtils.ts:38-46 | "a b c d" truncated to 2 is "a b..."; a missing text gives "" |
| `StringUtils.TruncateShortExample` | src/composables/ui/useStringUtils.ts:42-45 | "a b" truncated to 5 is "a b" |
| `StringUtils.WordCountExamples` | src/composables/ui/useStringUtils.ts:48-51 | "" counts 0, "a b c" counts 3, and "a  b" counts 3 because the empty piece counts |

## Left out

- src/composables/useData.ts is not part of this model. All of its behaviour is awaited calls into the browser database library, which is not visible here, plus races between refetches.
- The plugins (database opening, router, UI framework registration), the lint and format configuration, the record type declarations and the breadcrumb `ref` are not part of this model. They are framework glue with no operations.
- Vue reactivity (`reactive`, `shallowReactive`, `markRaw`) is not modelled. The component an overlay renders is an opaque `Component` token.
- The handle that `create` returns is not modelled separately. Its `open`/`close`/`patch`/`replace` only pass the id on, so the model's callers pass the id themselves.
- Promise scheduling is not modelled. A promise is a ticket, and its resolution is the `Delivery` that `close` returns. `await` inside the dialog handlers is modelled only as "the callback completes or fails".
- Aliasing of props is not modelled. `create` and `replace` keep the caller's props object by reference, so in the source a later `patch` can also change the caller's object. Two overlays created with the same props object (useOverlay.ts:41) share it, so patching one changes the props of the other too. Props here are immutable maps, so `Overlay.PatchStep`'s "every other descriptor stays" holds in the model but not for overlays that share a props object in the source.
- Prop values are limited to the `Value` datatype (undefined, strings, integers, booleans, function identities).
- Unicode is not modelled. Whitespace is the ASCII set recognised by `trim` and `\s`, and upper-casing maps only `a`..`z`. For non-ASCII names `toUpperCase` can change a string's length; here the initials are always two characters.
- `truncate`'s limit is a natural number. JavaScript truthiness and `slice` for negative, fractional or NaN limits are not modelled.
- The snackbar duration is an integer, not a floating-point number. A key passed explicitly as `undefined` (which the object spread lets override a default) is not distinguished from an omitted key; both are `None`.
- `unMount` splices at the index `findIndex` returns. That index is never -1 there, because the descriptor was just found, so the -1 case is not modelled.
- The confirm dialog's handlers close the overlay only after their callback completes. The code has no `finally`, so a callback that throws leaves the dialog open. The model follows the code; `Dialog.FailingCallbackKeepsOpen` states this behaviour.
