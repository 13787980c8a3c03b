# Block-format dropdown of a Lexical rich-text toolbar

This project models the toolbar's block-format dropdown in Dafny and proves
properties of the model. The dropdown is `HeadingToolbarPlugin` in
`src/plugins/HeadingToolbarPlugin.tsx`, and `ToolbarPlugin` in
`src/components/Toolbar.tsx` embeds it.

The dropdown has two pieces of state: whether the menu is open, and which
option of the static six-entry catalogue its button shows. Six handlers act
on that state. The button's toggle flips the menu. The menu items "Normal"
and "Heading 1-3" ask the editor to convert the selection's blocks. The
heading items do so only when the block is not already that heading, and the
conversion happens only on a range or grid selection. The items "Bulleted
List" and "Numbered List" always dispatch exactly one list command: insert,
or remove when the block already is that kind of list. Every item then
closes the menu, and all but the headings set the option the button shows. A
document-wide mouse-down listener closes the menu when the target lies
outside the dropdown.

Files and modules:

- `options.dfy`, module `Options`: the optional value used for the catalogue's
  optional `tag` and for a string that is not a table key.
- `block_types.dfy`, module `BlockTypes`: the table `blockTypeToBlockName`.
  The object literal is the map `Table`, and its twelve keys are a `BlockType`
  datatype. `Key` and `BlockName` give the key string and the display name of
  each, and `FromKey` reads a string as a member of the key type
  `keyof typeof blockTypeToBlockName`.
- `heading_toolbar.dfy`, module `HeadingToolbar`: the `Tags` catalogue and the
  `Command` requests sent to the host editor. It holds the user `Event`s and
  the specification functions `Step` (one handler) and `Run` (a sequence of
  handlers), with lemmas about both. It also holds the class
  `HeadingToolbarPlugin`, whose fields are `isOpen` and `selected` plus a
  ghost log `sent`, and whose methods are the handlers.
- `toolbar.dfy`, module `Toolbar`: the fixed `blockType` with which
  `ToolbarPlugin` renders the dropdown, and the consequences of that choice.

Modelling decisions:

- The handlers read the `blockType` property as it is when they run, so each
  method takes it as a parameter.
- The guard "the selection is a range or a grid selection" is a boolean input
  `formattable`.
- The mouse-down test "root mounted and target not inside it" is two boolean
  inputs.
- Host-editor calls (`editor.update` with `$setBlocksType`, and
  `dispatchCommand`) become `Command` values appended to the log. The log
  records each `$setBlocksType` call and each `dispatchCommand` call, in
  order. The `editor.update` that `formatParagraph` always issues is not
  logged when the selection test inside it fails.
- `formatHeading` closes the menu but never assigns `selectedOption`, so
  after choosing "Heading 2" the button still shows the previous option
  (`Toolbar.ScenarioHeading2`).
- The mouse-down listener is registered once on mount
  (src/plugins/HeadingToolbarPlugin.tsx:145-150) and stays registered while
  the menu is closed. The model therefore lets a mouse-down arrive in any
  state; on a closed menu it does nothing (`MouseDownCloses`).
- The menu items are only rendered while the menu is open. The model does not
  need that restriction: every lemma about `Run` holds for all event
  sequences, so it also holds for those the rendered UI allows.
- The catalogue names the bullet-list option "Bullet List", while the table
  and the rendered button say "Bulleted List". `CatalogueNamesAgainstTable`
  records this.

## Model

| member | source | states |
|---|---|---|
| `BlockTypes.Key` | src/components/Toolbar.tsx:4-17 | every block type's key is a key of the table |
| `BlockTypes.BlockName` | src/components/Toolbar.tsx:4-17 | a block type's display name is the one the table stores under its key |
| `BlockTypes.FromKey` | src/components/Toolbar.tsx:4-17 | a string is read as a member of the key type exactly when it is a key of the table, and then as the block type with that key |
| `BlockTypes.KeyRoundTrip` | src/components/Toolbar.tsx:4-17 | looking up the key of any block type returns that same block type |
| `BlockTypes.TableHasTwelveEntries` | src/components/Toolbar.tsx:4-17 | the table lists exactly twelve block types, every block type, each once, and its keys are exactly their keys |
| `BlockTypes.BlockNamesDistinct` | src/components/Toolbar.tsx:4-17 | two block types with the same display name are the same block type |
| `BlockTypes.KeysDistinct` | src/components/Toolbar.tsx:4-17 | two block types with the same key are the same block type |
| `BlockTypes.NamesOfMenuBlockTypes` | src/components/Toolbar.tsx:5-15 | paragraph is "Normal", h1/h2/h3 are "Heading 1/2/3", bullet is "Bulleted List", number is "Numbered List" |
| `HeadingToolbar.HeadingBlock` | src/plugins/HeadingToolbarPlugin.tsx:101-102 | the heading tag compared with `blockType` is the block type whose key is "h1", "h2" or "h3" respectively |
| `HeadingToolbar.CatalogueLayout` | src/plugins/HeadingToolbarPlugin.tsx:61-76 | the catalogue has six options; index 0 is the untagged "Normal", index 4 the `ul` "Bullet List", index 5 the `ol` "Numbered List"; names are pairwise distinct while ids repeat across groups |
| `HeadingToolbar.CatalogueNamesAgainstTable` | src/plugins/HeadingToolbarPlugin.tsx:61-76 | the paragraph, heading and numbered-list option names equal the table's names for those block types, and the bullet-list option's name differs from the table's |
| `HeadingToolbar.Step` | src/plugins/HeadingToolbarPlugin.tsx:88-143 | one handler sends at most one request; the list handlers send exactly one; toggle and mouse-down send none; every handler but toggle either leaves the state alone or closes the menu; toggle always flips the menu; toggle, mouse-down and heading keep the option shown; an option a handler may assign stays one |
| `HeadingToolbar.Run` | src/plugins/HeadingToolbarPlugin.tsx:78-150 | handlers run one after another send at most one request per event and keep the option shown among those a handler may assign |
| `HeadingToolbar.AssignableInCatalogue` | src/plugins/HeadingToolbarPlugin.tsx:84-132 | the initial option and the options the handlers assign (indices 0, 4, 5) are all catalogue entries |
| `HeadingToolbar.SelectedAlwaysInCatalogue` | src/plugins/HeadingToolbarPlugin.tsx:84-134 | after any sequence of events from the initial state, the option shown is index 0, 4 or 5, hence a catalogue entry, and never a heading option |
| `HeadingToolbar.ToggleTwiceRestores` | src/plugins/HeadingToolbarPlugin.tsx:158 | toggle flips `isOpen`, sends nothing and keeps the option; two toggles restore the state |
| `HeadingToolbar.FormatParagraphIdempotent` | src/plugins/HeadingToolbarPlugin.tsx:88-100 | "Normal" sends a paragraph request exactly when the selection is formattable, shows "Normal" and closes the menu; a second "Normal" leaves the state as the first did |
| `HeadingToolbar.FormatHeadingRequest` | src/plugins/HeadingToolbarPlugin.tsx:101-114 | a heading is requested if and only if the block type differs from it and the selection is formattable, and nothing is sent otherwise; the menu closes and the option shown is unchanged |
| `HeadingToolbar.FormatBulletListRequest` | src/plugins/HeadingToolbarPlugin.tsx:116-124 | the bullet handler sends remove-list if and only if the block type is bullet, and insert-unordered if and only if it is not; it shows option 4 and closes the menu |
| `HeadingToolbar.FormatNumberedListRequest` | src/plugins/HeadingToolbarPlugin.tsx:126-134 | the numbered handler sends remove-list if and only if the block type is number, and insert-ordered if and only if it is not; it shows option 5 and closes the menu |
| `HeadingToolbar.MouseDownCloses` | src/plugins/HeadingToolbarPlugin.tsx:136-143 | afterwards the menu is open if and only if it was open and not (root mounted and target outside); nothing is sent; the option is kept; on a closed menu nothing changes |
| `HeadingToolbar.NoFormattingNoRequests` | src/plugins/HeadingToolbarPlugin.tsx:136-158 | any sequence of toggles and mouse-downs sends no request and keeps the option shown |
| `HeadingToolbar.ScenarioRemoveBulletList` | src/plugins/HeadingToolbarPlugin.tsx:116-124 | with the menu open on a bullet block, choosing "Bullet List" sends only remove-list, shows option 4 and closes the menu |
| `HeadingToolbar.HeadingToolbarPlugin.constructor` | src/plugins/HeadingToolbarPlugin.tsx:84-85 | a mounted dropdown starts closed, showing "Normal", with nothing sent |
| `HeadingToolbar.HeadingToolbarPlugin.Toggle` | src/plugins/HeadingToolbarPlugin.tsx:158 | `isOpen` becomes its negation; option and log unchanged |
| `HeadingToolbar.HeadingToolbarPlugin.FormatParagraph` | src/plugins/HeadingToolbarPlugin.tsx:88-100 | appends a paragraph request exactly when formattable; shows option 0; closes |
| `HeadingToolbar.HeadingToolbarPlugin.FormatHeading` | src/plugins/HeadingToolbarPlugin.tsx:101-114 | appends the heading request exactly when the block type differs and the selection is formattable; closes; option unchanged |
| `HeadingToolbar.HeadingToolbarPlugin.FormatBulletList` | src/plugins/HeadingToolbarPlugin.tsx:116-124 | appends insert-unordered, or remove-list when the block type is bullet; shows option 4; closes |
| `HeadingToolbar.HeadingToolbarPlugin.FormatNumberedList` | src/plugins/HeadingToolbarPlugin.tsx:126-134 | appends insert-ordered, or remove-list when the block type is number; shows option 5; closes |
| `HeadingToolbar.HeadingToolbarPlugin.HandleClickOutside` | src/plugins/HeadingToolbarPlugin.tsx:136-143 | closes exactly when the root is mounted and the target is outside it; option and log unchanged |
| `HeadingToolbar.HeadingToolbarPlugin.Handle` | src/plugins/HeadingToolbarPlugin.tsx:145-214 | dispatching an event to the handler wired to it changes the state and the log exactly as `Step` says, keeping the option among those assignable |
| `Toolbar.ToolbarBlockTypeIsParagraph` | src/components/Toolbar.tsx:20-21 | the initial state value "paragraph" is a key of the table, naming the block type passed on, whose display name is "Normal" |
| `Toolbar.HeadingAlwaysRequested` | src/components/Toolbar.tsx:20-25 | inside the toolbar, choosing any heading on a formattable selection always requests that heading |
| `Toolbar.ListsAlwaysInsert` | src/components/Toolbar.tsx:20-25 | inside the toolbar, the list options always send an insert request |
| `Toolbar.NeverRemovesList` | src/components/Toolbar.tsx:20-25 | inside the toolbar, no sequence of events ever sends remove-list |
| `Toolbar.ScenarioHeading2` | src/plugins/HeadingToolbarPlugin.tsx:101-114 | toggle then "Heading 2" from the initial state requests heading 2 and closes the menu, and the option shown stays "Normal" |
| `Toolbar.ClickHeading2` | src/plugins/HeadingToolbarPlugin.tsx:153-186 | the same session on the controller object: toggle, a mouse-down inside the root, then "Heading 2" leave the menu closed, "Normal" shown and one heading request logged |

## Left out

- Rendering: the markup, CSS classes and icon glyphs (src/plugins/HeadingToolbarPlugin.tsx:151-220). Icons are opaque labels; the button showing `selectedOption.icon` is not modelled beyond the `selected` field.
- Host-editor internals: `$getSelection`, `$setBlocksType`, `$createHeadingNode`, `$createParagraphNode`, `editor.update` and `dispatchCommand` belong to the Lexical framework. They appear only as entries in the request log. How they change the document is not modelled.
- Registering and removing the document `mousedown` listener, and `Node.contains`: these are DOM lifecycle. The model reduces them to the inputs "root mounted" and "target inside".
- React's batching of state updates and re-rendering: each handler's effect is applied at once, in order.
- The unused `HeadingTags` / `IHeading` declarations (src/plugins/HeadingToolbarPlugin.tsx:22-35): dead code.
- src/components/Editor.tsx: framework configuration (theme, error logging, plugin composition) with no logic of its own.
- src/Mentions/BeautifulMentionsPluginProps.ts: type declarations only. The behaviour they describe (search delay, creatable mentions) lives in an external library.
- pages/_app.tsx: page shell and font loading.
