# Recipe app ledgers and AI-chef handler, modelled in Dafny

This project models the three pieces of logic in the recipe app that can be
stated precisely:

- **Meal planner** (`recipe-app/app/meal-planner.tsx`). The screen keeps a map
  from weekday name to meal text in its `mealPlan` state. The whole map is
  persisted under the store key `"mealPlan"`. `MealPlanner.MealPlannerScreen`
  is a class with that state and the store as fields. Its methods are
  `LoadMealPlan`, `SaveMeal` and `ClearPlan`, plus `EditRow` for the
  text box of one weekday row. Each method updates state and store in the
  source's order. The map update and the display rule `mealPlan[day] || ""`
  are pure functions (`Upsert`, `Shown`, `Rows`).
- **Grocery list** (`recipe-app/app/grocery-list.tsx`). The screen keeps a list
  of strings, persisted under `"groceryList"`. `GroceryList.RemoveAt` is the
  positional filter `filter((_, i) => i !== index)`. The class
  `GroceryList.GroceryListScreen` holds `LoadList` and `RemoveItem`.
  `RemoveItem` writes the store first and sets the state only after that write succeeds.
- **AI-chef backend** (`ai-chef-backend/server.js`). `AiChefServer.HandleAiChef`
  is the `/ai-chef` POST handler as a total function. Its inputs are the
  request's `query`, the API key from the environment, and the upstream
  completion call. It returns an HTTP status and a JSON body.
  `HealthCheck` is the `/` route. `ListenPort` is the `PORT` default.

The on-device store is `Storage.Store`, a map from key to `Storage.Value`. A
value is either raw text or a document written by `JSON.stringify`, and the
document is kept as the plan or list it encodes. JSON text encoding is thus
treated as an exact round trip. Every call into the store can fail. Each
method takes that outcome as a boolean parameter (`readOk`, `writeOk`,
`removeOk`). The upstream completion call is a function parameter
`call: ChatRequest -> Upstream`. Its outcome is either `Threw` or
`Answered(httpStatus, data)`, where `data` is the parsed body as a
`JsValue`. The handler walks `data.choices?.[0]?.message?.content` over that
value with JavaScript's optional-chaining and truthiness rules.

Behaviour of the code worth noting:

- Loading a meal plan when nothing is saved keeps the current plan. It does not
  reset the plan to empty. (The screen mounts with `{}`, so a fresh screen
  still shows an empty plan.)
- The upstream HTTP status is never checked. A non-2xx answer whose body
  parses to anything but `null` gives a `reply` with status 200, not an error.
- `saveMeal` does not validate the day name. Only the screen's seven rows
  call it, and `EditRow` models those calls.
- The fallback reply is the fixed text "⚠️ No suggestion available.", sent with status 200.
- A body that parses to `null` makes `data.choices` throw, so it answers 500, like a network failure.

## Model

| member | source | states |
|---|---|---|
| MealPlanner.DaysAreDistinct | recipe-app/app/meal-planner.tsx:5 | the `days` constant holds exactly seven different weekday names |
| MealPlanner.Upsert | recipe-app/app/meal-planner.tsx:25 | after saving, `day` maps to `meal` and every other day keeps its entry; an empty meal is kept as a key, not removed |
| MealPlanner.Shown | recipe-app/app/meal-planner.tsx:60 | a day's box shows "" exactly when the day is unset or stored as "", and otherwise the stored text |
| MealPlanner.Rows | recipe-app/app/meal-planner.tsx:55-61 | the screen renders seven boxes, row i showing the text for the i-th weekday |
| MealPlanner.EditChangesOneRow | recipe-app/app/meal-planner.tsx:55-61 | typing into row i sets that box to the typed text and leaves the other six boxes as they were |
| MealPlanner.UpsertKeepsWeekly | recipe-app/app/meal-planner.tsx:5 | saving under one of the seven weekday names never introduces a non-weekday key |
| MealPlanner.ParsedPlan | recipe-app/app/meal-planner.tsx:16-17 | a plan is loaded exactly when the saved value is truthy and parses as a plan, and it is the stored plan |
| MealPlanner.SavedPlanReloads | recipe-app/app/meal-planner.tsx:27 | a plan written under "mealPlan" is the plan a restarted screen loads |
| MealPlanner.MealPlannerScreen.constructor | recipe-app/app/meal-planner.tsx:8 | the screen state starts as the empty map |
| MealPlanner.MealPlannerScreen.LoadMealPlan | recipe-app/app/meal-planner.tsx:14-21 | the plan becomes the saved plan when one is saved and parseable; a failed read, an absent or empty value, or a parse failure leave it unchanged; the store is untouched |
| MealPlanner.MealPlannerScreen.SaveMeal | recipe-app/app/meal-planner.tsx:23-31 | the state becomes the upserted plan even if the write fails; on success the store holds exactly that plan under "mealPlan", on failure the store keeps its old value |
| MealPlanner.MealPlannerScreen.ClearPlan | recipe-app/app/meal-planner.tsx:33-41 | on success "mealPlan" is absent from the store, other keys are kept and the plan is empty; a failed removal changes neither |
| MealPlanner.MealPlannerScreen.EditRow | recipe-app/app/meal-planner.tsx:55-61 | an edit through row i is `saveMeal` on the i-th weekday: the plan becomes the upserted plan, the store gets that plan on success and keeps its old value on failure; only row i's text changes, a weekday-only plan stays weekday-only, and state and store are in sync after a successful write |
| GroceryList.RemoveAt | recipe-app/app/grocery-list.tsx:23 | for an index in range the result is the list without that one position; for any other index it is the list unchanged |
| GroceryList.RemoveAtKeepsOrder | recipe-app/app/grocery-list.tsx:23 | removal makes the list one shorter and keeps the remaining elements in their relative order |
| GroceryList.RemoveAtTakesOneOccurrence | recipe-app/app/grocery-list.tsx:23 | the result's multiset plus the removed element is the original list's multiset |
| GroceryList.RemoveAtKeepsDuplicates | recipe-app/app/grocery-list.tsx:23 | only the element at the index goes: the removed string's count drops by exactly one, so an equal string elsewhere stays, and every other string's count is unchanged |
| GroceryList.RemoveFirstOfTwo | recipe-app/app/grocery-list.tsx:23 | removing index 0 from ["2 eggs", "1 cup flour"] leaves ["1 cup flour"] |
| GroceryList.RemoveOneOfDuplicates | recipe-app/app/grocery-list.tsx:23 | in the example ["milk", "eggs", "milk"], removing position 0 or position 2 leaves the other "milk" |
| GroceryList.ParsedList | recipe-app/app/grocery-list.tsx:14-15 | an absent or empty saved value loads as the empty list; a stored list loads as itself; anything else fails to parse |
| GroceryList.SavedListReloads | recipe-app/app/grocery-list.tsx:24 | a list written under "groceryList" is the list a restarted screen loads |
| GroceryList.GroceryListScreen.constructor | recipe-app/app/grocery-list.tsx:6 | the screen state starts as the empty list |
| GroceryList.GroceryListScreen.LoadList | recipe-app/app/grocery-list.tsx:12-19 | the state becomes the parsed saved list, or [] when nothing is saved; a failed read or a parse failure leaves it unchanged |
| GroceryList.GroceryListScreen.RemoveItem | recipe-app/app/grocery-list.tsx:21-29 | on a successful write the store and the state both hold the list without that position; on a failed write both are unchanged |
| AiChefServer.FirstContent | ai-chef-backend/server.js:47 | `data.choices?.[0]?.message?.content` throws exactly when the parsed body is null; it yields the content wherever the body has one at `choices[0].message.content`, `[0]` being an array's first item or an object's key "0"; it yields undefined on every other body: one that is not an object (an array, a string, a number, a boolean), no `choices` or a null one, an empty `choices`, a first choice that is not an object or has no `message`, or a `message` that is not an object or has no `content` |
| AiChefServer.OtherBodyShapes | ai-chef-backend/server.js:47 | the bodies `[]`, `"x"` and `42` give undefined, and an object `choices` with key "0" gives that entry's content |
| AiChefServer.Prompt | ai-chef-backend/server.js:26-41 | the upstream request carries "Bearer " plus the key ("Bearer undefined" when no key is set), the fixed model and exactly two messages: the fixed chef system prompt, then the query as the user message |
| AiChefServer.HandleAiChef | ai-chef-backend/server.js:18-53 | status is 400 exactly for a falsy query, with error "Query is required"; 500 exactly when the upstream call throws or its body parses to null, with error "Failed to fetch AI response"; 200 otherwise, carrying only a truthy `reply` |
| AiChefServer.FalsyQueryNeverCallsUpstream | ai-chef-backend/server.js:21-23 | a falsy query gets 400 "Query is required" whatever the upstream would answer |
| AiChefServer.ContentIsRelayed | ai-chef-backend/server.js:46-48 | a non-empty string as the first choice's content is the reply |
| AiChefServer.ReplyIsContentOrFallback | ai-chef-backend/server.js:46-48 | for any upstream status and any body with a value at `choices[0].message.content`, the reply is that content when it is truthy and the fallback text when it is falsy (null, false, 0, "") |
| AiChefServer.NullBodyFails | ai-chef-backend/server.js:44-52 | an upstream body that parses to null answers 500 "Failed to fetch AI response" |
| AiChefServer.MissingContentFallsBack | ai-chef-backend/server.js:47 | with a body that is not an object; `choices` absent, null, empty or without an element `[0]`; a first choice that is not an object or has no `message`; or a `message` that is not an object or has no `content`, the answer is the fallback text with status 200, whatever the upstream status |
| AiChefServer.UpstreamStatusIgnored | ai-chef-backend/server.js:44-48 | two upstream answers with the same body and different HTTP statuses give the same response |
| AiChefServer.FailureDistinctFromFallback | ai-chef-backend/server.js:49-52 | an upstream throw gives 500 "Failed to fetch AI response", which equals no reply response, the fallback included |
| AiChefServer.HealthCheck | ai-chef-backend/server.js:13-15 | GET / answers 200 with the fixed liveness text for every request |
| AiChefServer.ListenPort | ai-chef-backend/server.js:56 | a set, non-empty PORT text is the port; an unset or empty PORT gives 3000 |

## Left out

- Rendering, styling, navigation, `Alert` and the other screens: user interface only.
- Asynchronous interleaving. Overlapping `saveMeal` calls fired per keystroke, or `removeItem` running on a stale list, are left out; the model runs each operation to completion, one at a time.
- AsyncStorage, fetch, Express, CORS and dotenv are foreign calls. Store calls are a map plus a success flag per call. The upstream call is a function parameter, and the environment values are parameters.
- JSON text encoding is not modelled: stringify and parse are treated as an exact round trip on plans and lists.
- Any stored text that is not a plan document is read as a parse failure under "mealPlan", and any text that is not a list document likewise under "groceryList". The code does not do this for text that is valid JSON of another shape ("null", "42", an array under "mealPlan", an object with non-string values): JSON.parse accepts it and the code puts the value into state unchecked. For "null" the next render then throws. Neither screen ever writes such a value.
- `console.error` and `console.log` logging.
- RemoveAt: the index is an integer. A fractional JavaScript number never equals a position, so it leaves the list unchanged, which is the same as an out-of-range index.
- AiChefServer.Element0: indexing a string keeps its first character, not its first UTF-16 code unit. That string is then only read for `.message`, which is undefined either way.
- AiChefServer.HandleAiChef: the input is the `query` field itself. A request body that Express fails to parse never reaches the handler.
- The favorites ledger, multi-ingredient search, recent searches and recipe detail cache are not part of this model. None of the modelled files implements them.
