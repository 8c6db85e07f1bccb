# Pizza-order bot and card review tool, in Dafny

This project models the deterministic core of a demo chat bot that takes pizza
orders. The bot's language model calls four tool callbacks on the order of the
current conversation:

- `addPizza` appends a pizza.
- `viewOrder` returns the order.
- `checkout` records name, address and payment, sets the status to
  "preparing" and emits an Adaptive Card that summarises the order.
- `trackOrder` reports the status.

Orders are kept per conversation key, `conversationId + "/" + fromId`. A press
of one of the card's buttons (confirm, edit, cancel) goes to a card-action
handler that changes the stored order. The project also models the small
command-line tool that pages through evaluation-card files with `n`, `p` and `q`.

Modules, one file each:

- `Wrappers` (wrappers.dfy): `Option`, standing for JavaScript's `undefined`.
- `Text` (text.dfy): the JavaScript string behaviour the code relies on. It
  covers truthiness of optional strings, `join`, `${n}` for a natural number,
  `trim` with the full ECMAScript white-space set, `toLowerCase` and
  `endsWith`. It also holds `Split` on one character. The code never calls
  `split`; `Split` only reads a joined text back, to state that the order
  summary has one line per pizza (`Cards.SummaryLines`).
- `Orders` (orders.dfy): the `Pizza` and `Order` records, and the tool
  callbacks' effects as functions on order values.
- `Cards` (cards.dfy): `buildCard` as a function from an order to a card value.
- `Session` (session.dfy): the conversation key, and two classes with the
  card-action handler between them. The class `ActiveOrder` is the order
  object of one message turn; the tool callbacks update its fields in place.
  The class `OrderStore` holds the store of orders (`map<string, Order>`). The
  card-action handler works on that store.
- `ReviewCards` (review_cards.dfy): the review tool. It covers the `.json`
  filter, the start-up exits, `load`, the screen, command parsing and the
  cursor.

The model follows the code:

- A confirm press sets the status to "baking" whatever the status was. The
  code has no forward-only guard, and no "cancelled" status: cancel deletes
  the order.
- Nothing checks that `type`, `size` or `name` are non-empty. The tool schema
  only marks them as required.
- The card's actions come in the order confirm, edit, cancel.
- A pizza line always has a space after the pizza type. One large pepperoni
  with no crust and no toppings renders as `"1. large pepperoni "`.

The property `type` of a pizza is called `kind`, because `type` is a Dafny keyword.

The key format does not always keep users apart. When a conversation id
contains "/", two different (conversation, user) pairs can share a key
(`Session.KeyCollision`). When conversation ids have no "/", keys are injective
(`Session.KeyInjective`).

## Model

| member | source | states |
|---|---|---|
| `Text.Truthy` | codex-agent/src/index.ts:34 | an optional string is falsy exactly when it is absent or the empty string |
| `Text.OrEmpty` | tools/reviewCards.js:25-27 | defaulting a field to '' gives '' exactly when the value is falsy, and the value otherwise |
| `Text.NatToString` | codex-agent/src/index.ts:34 | `${i + 1}` is a non-empty string of decimal digits with no leading zero |
| `Text.NatToStringInjective` | codex-agent/src/index.ts:34 | two numbers render alike exactly when they are equal |
| `Text.DecimalRoundTrip` | codex-agent/src/index.ts:34 | reading the rendered digits back gives the number again |
| `Text.Join` | codex-agent/src/index.ts:36-40 | `join` of no elements is ""; a joined text begins with its first element |
| `Text.Trim` | tools/reviewCards.js:47 | `trim` gives a piece of the text with only white space before it and after it; the piece is "" exactly when the text is all white space, and otherwise neither starts nor ends with white space |
| `Text.EndsWith` | tools/reviewCards.js:12 | `s.endsWith(x)` holds exactly when `s` is some text followed by `x` |
| `Text.ToLower` | tools/reviewCards.js:47 | lower-casing keeps the length and maps each character on its own |
| `Text.TrimPadded` | tools/reviewCards.js:47 | a character with white space around it trims to that character |
| `Text.ToLowerLetter` | tools/reviewCards.js:47-52 | a string lower-cases to n, p or q exactly when it is that letter in either case |
| `Orders.NewPizza` | codex-agent/src/index.ts:112-117 | the stored pizza keeps type, size and crust, and its toppings are the given list or `[]` when absent |
| `Orders.WithPizza` | codex-agent/src/index.ts:111-118 | `addPizza` adds exactly one pizza at the end; the earlier pizzas and every other field are unchanged |
| `Orders.CheckedOut` | codex-agent/src/index.ts:136-140 | `checkout` sets name, address and payment to its arguments (absent ones clear the field) and status to "preparing"; the pizzas are unchanged |
| `Orders.TrackStatus` | codex-agent/src/index.ts:154-156 | `trackOrder` answers the status when it is truthy, else "no order"; the answer is never empty |
| `Orders.AddingKeepsEarlierPizzas` | codex-agent/src/index.ts:111-118 | any sequence of `addPizza` calls appends the pizzas in call order and keeps the earlier ones in place |
| `Orders.TrackBeforeAndAfterCheckout` | codex-agent/src/index.ts:136-156 | on a new order, `trackOrder` says "no order" before checkout and "preparing" after it |
| `Orders.CheckoutOverwrites` | codex-agent/src/index.ts:136-140 | a second checkout replaces all details of the first |
| `Cards.PizzaLine` | codex-agent/src/index.ts:34-38 | a pizza line starts with "number. "; `(crust)` appears only for a truthy crust and ` with a, b` only for non-empty toppings; with neither, the line ends in the space after the type |
| `Cards.PizzaLines` | codex-agent/src/index.ts:32-39 | one line per pizza; pizza `i` gets the 1-based number `i + 1` |
| `Cards.FieldText` | codex-agent/src/index.ts:53-67 | a checkout field's block is the caption plus the value when the value is truthy, and blank otherwise |
| `Cards.BuildCard` | codex-agent/src/index.ts:31-77 | the card has the fixed schema URL and version "1.4" and exactly five blocks. Block 1 is the title. Block 2 is "No pizzas added yet." exactly when there are no pizzas, otherwise the summary. Blocks 3 to 5 are the Name/Address/Payment lines, blank exactly when the value is falsy. The actions are confirm, edit and cancel, in that order |
| `Cards.Summary` | codex-agent/src/index.ts:32-40 | the summary is empty exactly when there are no pizzas; otherwise it begins with the first pizza's line, so with "1. " |
| `Cards.SummaryText` | codex-agent/src/index.ts:50 | the summary block shows "No pizzas added yet." exactly when there are no pizzas, and the summary otherwise |
| `Cards.SummaryAppend` | codex-agent/src/index.ts:32-40 | adding a pizza appends one line to the summary and leaves the earlier text as it was |
| `Cards.SummaryLines` | codex-agent/src/index.ts:32-40 | when no property holds a line break, splitting the summary at newlines gives exactly one line per pizza, in insertion order |
| `Cards.DistinctLineNumbers` | codex-agent/src/index.ts:33-35 | two different lines of the summary are never alike: they open with different numbers |
| `Cards.LineNumberReadsBack` | codex-agent/src/index.ts:34 | the number at the start of line `i` reads back as `i + 1` |
| `Cards.CheckoutCardExample` | codex-agent/src/index.ts:136-141 | one large pepperoni checked out by Alice renders as "1. large pepperoni ", "Name: Alice", "Address: 1 Main St" and "Payment: card", with status "preparing" |
| `Session.Key` | codex-agent/src/index.ts:80 | the key is the conversation id, a "/", then the user id |
| `Session.SplitKey` | codex-agent/src/index.ts:167 | splitting a key at its first "/" gives ids that rebuild the key |
| `Session.KeyRoundTrip` | codex-agent/src/index.ts:80 | a key whose conversation id has no "/" splits back into its two ids |
| `Session.KeyInjective` | codex-agent/src/index.ts:167 | distinct users get distinct keys when conversation ids contain no "/" |
| `Session.KeyCollision` | codex-agent/src/index.ts:80 | with a "/" in the conversation id, two different id pairs share a key |
| `Session.ActiveOrder.constructor` | codex-agent/src/index.ts:82 | the turn's order object starts as the given order |
| `Session.ActiveOrder.AddPizza` | codex-agent/src/index.ts:111-119 | updates the order in place to `WithPizza` of the old order and answers ok |
| `Session.ActiveOrder.ViewOrder` | codex-agent/src/index.ts:122 | returns the current order and changes nothing |
| `Session.ActiveOrder.Checkout` | codex-agent/src/index.ts:136-151 | updates the order in place to `CheckedOut` of the old order and emits the card of the new order |
| `Session.ActiveOrder.TrackOrder` | codex-agent/src/index.ts:154-156 | answers `TrackStatus` of the current order and changes nothing |
| `Session.LoadOrder` | codex-agent/src/index.ts:82 | a turn works on the stored order of its key, or on `{ pizzas: [] }` when there is none |
| `Session.ApplyCardAction` | codex-agent/src/index.ts:166-188 | no order: store unchanged, reply "No active order.". Confirm: only the status changes, to "baking". Cancel: the key is removed. Any other value: the store is identical. No other key changes in any case; each case has its fixed reply |
| `Session.OrderStore.constructor` | codex-agent/src/index.ts:24 | the store starts empty |
| `Session.OrderStore.BeginTurn` | codex-agent/src/index.ts:80-82 | a message turn derives the key and gets a fresh order object holding `LoadOrder` of it |
| `Session.OrderStore.EndTurn` | codex-agent/src/index.ts:163 | the end of a turn writes the turn's order under its key and changes no other key |
| `Session.OrderStore.HandleCardAction` | codex-agent/src/index.ts:166-188 | updates the store and replies exactly as `ApplyCardAction` on the derived key |
| `Session.CardButtonsDispatch` | codex-agent/src/index.ts:72-74 | pressing an order's own card buttons: Confirm bakes it, Edit leaves the store unchanged, Cancel deletes it |
| `Session.OrderLifecycle` | codex-agent/src/index.ts:136-187 | a new key tracks "no order", then "preparing" after checkout and "baking" after confirm with its pizzas kept; after cancel the next turn starts from the empty order |
| `Session.OtherKeysUntouched` | codex-agent/src/index.ts:166-188 | any sequence of button presses on one key leaves every other key's order as it was |
| `ReviewCards.JsonFiles` | tools/reviewCards.js:12 | a name is kept exactly when it is listed and ends in ".json"; the list does not grow |
| `ReviewCards.JsonFilesAppend` | tools/reviewCards.js:12 | filtering keeps relative order: it distributes over concatenation |
| `ReviewCards.JsonFilesIdempotent` | tools/reviewCards.js:12 | filtering a filtered list changes nothing |
| `ReviewCards.Start` | tools/reviewCards.js:7-16 | a missing directory exits 1 with "Directory not found: dir"; no card files exits 0 with "No card files found."; otherwise browsing starts on the non-empty filtered list |
| `ReviewCards.Load` | tools/reviewCards.js:20-33 | each field is the file's text, or "" when it is missing, falsy, or the file could not be read or parsed |
| `ReviewCards.Header` | tools/reviewCards.js:37 | the header is "\n[", the position, "/", the count, "] " and the file name: the position reads back as `index + 1`, between 1 and the file count, and the count reads back as `files.length` |
| `ReviewCards.Screen` | tools/reviewCards.js:35-42 | a card is shown as five lines: the header, "Question: ", "Correct Answer: " and "AI Answer: " each followed by the card's text, then the command help |
| `ReviewCards.ParseCommand` | tools/reviewCards.js:47-52 | a line is n, p or q exactly when it trims to that letter in either case; every other line is no command |
| `ReviewCards.CommandShape` | tools/reviewCards.js:47-52 | a line that is a command is white space, then the command's letter in either case, then white space |
| `ReviewCards.PaddedCommand` | tools/reviewCards.js:47 | white space around a command letter and its case do not matter: " N " is n |
| `ReviewCards.Step` | tools/reviewCards.js:48-51 | n moves forward exactly when not on the last card; p moves back exactly when not on the first; any other command leaves the cursor; the cursor stays below the count |
| `ReviewCards.Run` | tools/reviewCards.js:46-57 | after any sequence of delivered lines, `0 <= index < files.length` still holds |
| `ReviewCards.RunIgnoresQuit` | tools/reviewCards.js:52-54 | q closes input but does not move the cursor: the lines delivered around it have the same effect as without it |
| `ReviewCards.NextReachesLast` | tools/reviewCards.js:48-49 | k presses of n from a card move k cards forward, stopping at the last card |
| `ReviewCards.Reviewer.constructor` | tools/reviewCards.js:18 | browsing starts on the first card |
| `ReviewCards.Reviewer.Show` | tools/reviewCards.js:35-42 | shows the screen of the card at the cursor, as loaded |
| `ReviewCards.Reviewer.OnLine` | tools/reviewCards.js:46-57 | for any delivered line, also one after q: moves the cursor as `Step` does and keeps it on a card; q closes input and shows nothing; every other line shows the card again |

## Left out

- Host runtime: the Teams `App`, event routing, `stream.emit` delivery, the devtools plugin, and start-up with its port. These are framework I/O. The handler's emitted text is returned as a value instead.
- Language model: `ChatPrompt`, `OpenAIChatModel`, streaming of chunks and the JSON-schema tool registration. These are calls to an external service. The tool callbacks are modelled as methods that a caller invokes directly.
- Message history: the `LocalMemory` and the `storage` of chat messages per key. They only feed the language model.
- `LocalStorage` internals: the store holds order values. The model does not capture a stored object being shared by reference, so in the model a turn's changes reach the store only at `EndTurn`, and a turn whose model call fails writes nothing. The program differs for a key that already holds an order: the turn works on the stored object itself, so a tool callback's change stays in the store even when the model call fails before `orders.set`.
- `AdaptiveCard` builder: the card is a Dafny value. The fixed `type` tags (`AdaptiveCard`, `TextBlock`, `Action.Submit`) are left out because they never vary. A block without `wrap` is represented by `wrap == false`.
- The card-action handler's invoke response: the constant `statusCode: 200` and the activity type are left out. Only the response's `value` and the emitted text are kept.
- Tool arguments: `type`, `size` and `name` are taken as strings. The case of the language model omitting a required argument, or passing a non-string value, is not modelled.
- The card button's `value.action` is taken as an optional string. Any value that is not a string is treated as absent, which behaves the same under `===`.
- `Text.ToLower`: maps only ASCII letters. Only `N`, `P` and `Q` lower-case to `n`, `p` and `q`, so every command decision is the same as with full Unicode lower-casing. Other letters are not covered this way: for example U+212A KELVIN SIGN lower-cases to `k` in JavaScript but is left unchanged here, which is why `Text.ToLowerLetter` is stated only for n, p and q.
- `ReviewCards.Load`: a field holding a truthy value that is not a string (a number, an object) is not modelled. Fields are absent or strings.
- `Text.NatToString`: JavaScript's exponent notation for numbers of 10^21 and above is not modelled.
- CLI I/O: the default directory taken from `argv`, `existsSync`, `readdirSync`, `readFileSync`, `JSON.parse`, `readline` and console output. The directory listing and the parsed file are passed in as values, and the error message printed on a failed load is not modelled. A path that exists but is not a readable directory passes the existence check, then makes `readdirSync` throw; that uncaught exception is not modelled, and `ReviewCards.Start` covers only the two exits and browsing.
- Concurrency: the source has none. Races between events for the same key are not modelled.
- The guided size-then-toppings ordering variant: its source file is not part of this model.
