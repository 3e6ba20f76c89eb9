# EOS Insights chat panel, modelled in Dafny

EOS Insights is a single-page analytics dashboard whose only logic is a
scripted chat panel. This project models that panel's two pieces of
behaviour and proves what they promise.

- **The reply selector** (`generateBotResponse`). The user's text is
  lower-cased. Five keyword groups are then tried in a fixed priority
  order: users/growth, revenue/money/sales, engagement/activity,
  ai/accuracy/model, trend/forecast/prediction. The first group with a
  keyword occurring anywhere in the text decides which of five canned
  replies is given. If no group matches, a sixth, fallback reply is given.
  `Classifier.dfy` models it as an ordered table of `Rule(triggers, reply)`
  with a first-match scan (`FirstMatch`). It also keeps the source's
  `if`/`else` chain (`ChainResponse`) and proves the two agree on every
  input.
- **The transcript** (`handleSendMessage`, `handleKeyPress`, the initial
  `messages` state and the text field). `ChatPanel.dfy` models it as a class
  `Chat` with three fields: the transcript (`seq<Message>`), the text field
  (`input`), and the texts whose reply timer has not yet fired (`pending`,
  oldest first). The source's one-second `setTimeout` becomes two steps.
  `Send` appends the user's message and queues the text. `Deliver` fires the
  oldest timer and appends the selector's reply to that text.
- **String built-ins.** `Text.dfy` models the JavaScript string operations
  the panel relies on: `toLowerCase` (ASCII letters only), `includes`
  (proved equal to "occurs at some position") and `trim`.

The class invariant (`Consistent`) says five things:
- the transcript starts with the welcome message;
- every user message is non-blank;
- the pending texts are the newest user texts;
- every earlier user text has been answered, in order, by a bot message
  whose text is the selector's reply to it;
- in every prefix of the transcript, the replies never outnumber the
  questions.

`Send`, `Deliver`, `KeyPress` and `SetInput` all keep it.

## Model

| member | source | states |
|---|---|---|
| `Text.ToLower` | src/App.tsx:107 | the lower-cased input has the same length, every ASCII capital replaced by its small letter, every other character kept, and no capital left |
| `Text.ToLowerIdempotent` | src/App.tsx:107 | lower-casing an already lower-cased string changes nothing |
| `Text.ToLowerAppend` | src/App.tsx:107 | lower-casing distributes over concatenation |
| `Text.IncludesIffOccurs` | src/App.tsx:109-118 | `includes` is true exactly when the keyword occurs in the input at some position |
| `Text.IncludesInside` | src/App.tsx:109-118 | a keyword placed anywhere inside a string is included in it, whatever surrounds it |
| `Text.TrimStart` | src/App.tsx:80 | trimming the start leaves a suffix, drops only white space, and the result does not start with white space |
| `Text.TrimEnd` | src/App.tsx:80 | trimming the end leaves a prefix, drops only white space, and the result does not end with white space |
| `Text.Trim` | src/App.tsx:80 | a non-empty trimmed string starts and ends with a non-white-space character |
| `Text.TrimIsMiddle` | src/App.tsx:80 | the trimmed string is a contiguous piece of the input with only white space before and after it |
| `Text.TrimEmptyIffBlank` | src/App.tsx:80 | `input.trim()` is empty exactly when every character of the input is white space |
| `Classifier.RepliesDistinct` | src/App.tsx:109-121 | the six canned replies are six different strings |
| `Classifier.GenerateBotResponse` | src/App.tsx:106-122 | the selector is total and always returns one of the six canned replies |
| `Classifier.FirstMatchFromRules` | src/App.tsx:109-121 | the first-match scan returns the fallback or the reply of one of the rules |
| `Classifier.FirstMatchIsFirstFiring` | src/App.tsx:109-121 | the scan returns the reply of the first rule that fires, whatever later rules would say, and the fallback when none fires |
| `Classifier.RulesMatchGroups` | src/App.tsx:109-118 | each rule of the table fires exactly when the matching `includes` disjunction of the source succeeds |
| `Classifier.ScanEqualsChain` | src/App.tsx:106-122 | the data-driven first-match scan and the source's `if`/`else` chain give the same reply on every input |
| `Classifier.UserReplyIff` | src/App.tsx:109-110 | the users/growth reply comes exactly when "user" or "growth" occurs in the lower-cased input, whatever else is there |
| `Classifier.RevenueReplyIff` | src/App.tsx:109-112 | the revenue reply comes exactly when a revenue keyword occurs and no users/growth keyword does |
| `Classifier.EngagementReplyIff` | src/App.tsx:109-114 | the engagement reply comes exactly when an engagement keyword occurs and no keyword of a higher group does |
| `Classifier.AiReplyIff` | src/App.tsx:109-116 | the AI reply comes exactly when an AI keyword occurs and no keyword of a higher group does |
| `Classifier.TrendReplyIff` | src/App.tsx:109-118 | the trend reply comes exactly when a trend keyword occurs and no keyword of a higher group does |
| `Classifier.FallbackReplyIff` | src/App.tsx:109-121 | the fallback reply comes exactly when none of the thirteen keywords occurs in the lower-cased input |
| `Classifier.CaseInsensitive` | src/App.tsx:107 | an input and its lower-case form get the same reply |
| `Classifier.AiInsideAnyWord` | src/App.tsx:107-116 | "ai" inside any word selects the AI reply when no higher-group keyword is present: matching is by substring, not by word |
| `Classifier.NotIncludedWithoutLetter` | src/App.tsx:109-118 | a keyword with a letter that the input lacks is not included in it |
| `Classifier.UserRevenueExample` | src/App.tsx:109-110 | "user revenue" gets the users/growth reply |
| `Classifier.SaidExample` | src/App.tsx:115-116 | "said" gets the AI reply |
| `Classifier.AlreadyLower` | src/App.tsx:107 | a string without capitals is its own lower-case form |
| `Classifier.HelloHasNoKeyword` | src/App.tsx:109-118 | "hello" contains none of the thirteen keywords |
| `Classifier.HelloExample` | src/App.tsx:119-121 | "hello" gets the fallback reply |
| `Classifier.RevenueExample` | src/App.tsx:111-112 | "revenue" gets the revenue reply |
| `Classifier.RevenueCaseExample` | src/App.tsx:107-112 | "REVENUE" and "revenue" get the same reply, the revenue reply |
| `ChatPanel.TextsFromAppend` | src/App.tsx:89 | appending a message extends its sender's texts by its text and leaves the other sender's texts alone |
| `ChatPanel.RepliesNeverLeadAppend` | src/App.tsx:89 | an append keeps "no reply before its question" when the new whole transcript satisfies it |
| `ChatPanel.RepliesToAppend` | src/App.tsx:93 | the replies to one more question are the earlier replies followed by the selector's reply to it |
| `ChatPanel.InitialConsistent` | src/App.tsx:37-44 | the initial transcript, just the welcome message with nothing pending, satisfies the panel invariant |
| `ChatPanel.SendKeepsConsistent` | src/App.tsx:79-90 | appending a non-blank user text and queueing it keeps the panel invariant |
| `ChatPanel.DeliverKeepsConsistent` | src/App.tsx:92-101 | appending the reply to the oldest pending text and dropping it from the queue keeps the panel invariant |
| `ChatPanel.Chat.constructor` | src/App.tsx:37-45 | the panel starts with the welcome bot message, an empty field and no reply scheduled |
| `ChatPanel.Chat.SetInput` | src/App.tsx:335 | typing overwrites the field and nothing else |
| `ChatPanel.Chat.CanSend` | src/App.tsx:342 | the send button is enabled exactly when the field is not blank |
| `ChatPanel.Chat.Send` | src/App.tsx:79-104 | a blank field changes nothing and schedules nothing; otherwise the untrimmed text is appended as a user message after all earlier messages, its reply is queued, and the field is cleared |
| `ChatPanel.Chat.Deliver` | src/App.tsx:92-101 | the oldest scheduled reply fires: exactly one bot message carrying the selector's reply to that text is appended, and the field is untouched |
| `ChatPanel.Chat.KeyPress` | src/App.tsx:124-129 | Enter without Shift sends; any other key leaves transcript, field and queue unchanged |
| `ChatPanel.Exchange` | src/App.tsx:79-104 | with no reply outstanding, typing a non-blank text, sending it and letting the timer fire appends the user message and, right after it, the reply to that same text |
| `ChatPanel.BlankSubmission` | src/App.tsx:124-129 | pressing Enter on a blank field leaves the transcript and the queue as they were |

The following are plain definitions without contracts of their own; the
lemmas above state what they mean:
- `Text.LowerChar`, the one-character fold behind `toLowerCase` (src/App.tsx:107);
- `Text.Includes`, the `includes` scan (src/App.tsx:109-117), characterised by `Text.IncludesIffOccurs`;
- `Text.IsWhitespace`, the white-space set `trim` removes (src/App.tsx:80);
- the rule table (`Classifier.Rules`, `FirstMatch`, `AnyIncluded`) and the
  source's chain (`Classifier.ChainResponse` and the five `Mentions…` tests),
  src/App.tsx:106-122;
- `ChatPanel.Submits`, the key test "Enter pressed without Shift" (src/App.tsx:125), used in `ChatPanel.Chat.KeyPress`'s contract;
- `ChatPanel.TextsFrom` and `ChatPanel.RepliesTo`, views of the transcript;
- `ChatPanel.Consistent` and `ChatPanel.Chat.Valid`, the panel invariant
  described above, established by `InitialConsistent` and kept by
  `SendKeepsConsistent` and `DeliverKeepsConsistent`.

## Left out

- Rendering, layout, tab switching and styling (src/App.tsx:131-354, 46): presentational only.
- The hard-coded `performanceData`, `categoryData` and `metrics` arrays (src/App.tsx:20-34, 48-77): constant demo data that nothing computes.
- The lucide-react icons and recharts charts: library code outside this repository.
- Message `id` and `timestamp` (src/App.tsx:83-86, 95-98): they come from the wall clock and are not modelled. No uniqueness of ids is claimed: the code takes them from `Date.now()` (src/App.tsx:83) and `Date.now() + 1` (src/App.tsx:95), and those can repeat.
- The one-second delay and React's state batching: only their order is kept. Equal delays fire in the order they were scheduled, which is the FIFO order of `pending`. A timer that is dropped because the view closes is not modelled.
- `e.preventDefault()` (src/App.tsx:126): it only suppresses the browser's default action and changes no panel state.
- `ChatPanel.Chat.Deliver` requires a pending reply: a timer callback runs only after `Send` has scheduled it.
- `Text.ToLower`: only ASCII capitals are folded. JavaScript's `toLowerCase` also folds non-ASCII letters, and some of them expand: "İ" becomes "i" plus a combining dot. So for inputs with non-ASCII capitals, the model's reply can differ from the source's.
- `Text.Trim`: white space is the fixed set of code points ECMAScript lists for `WhiteSpace` and `LineTerminator` (the `Zs` separators as of current Unicode). A future Unicode version might add more.
