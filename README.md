# MindSpark AI chat servers and the product stores, in Dafny

This project models three groups of logic from a JavaScript portfolio repository and
proves properties about them.

**Local reply generators.** Six chat back ends and scripts answer a message with a local
"smart" reply:
- the super smart, balanced and concise servers;
- the mock server;
- the multi-provider server;
- the standalone browser script.

Each generator lowers the message once and runs an ordered chain of raw substring tests.
The first test that holds wins, and an unconditional default comes last. All six share one
rule-table model (`Rules`); each file is one table, and an `IfChain` function restates that
file's if/return chain as written. The `Precedence` lemma proves the two agree on every message.

**Provider fallback chains.** These are:
- Groq first, then the local generator (super smart, balanced, concise);
- OpenAI, then Groq, then Hugging Face, then the badged local reply (multi-provider);
- the OpenAI-only server's mapping from error status to reply text.

Each network call is an `Outcome` value (`Ok`, `HttpNotOk`, `Threw`). A chain records which
providers it called, so "not called", "called at most once" and "in this order" can be stated.

**Product stores.** These are:
- the shop back end's in-memory `products` array: a class with one method per route;
- the shop page's client-side copy with its `editingId` edit mode: a class;
- the storefront script's list, add path and search box: a class.

Each `fetch` the client code makes is a `Fetch` value, and the answer to `confirm` is a boolean.

Files:
- `options.dfy`, `text.dfy`: the option type, and ASCII `toLowerCase`, `includes` and `trim` with the ECMAScript white-space set.
- `rules.dfy`: the shared rule-table model.
- `providers.dfy`: the provider outcomes and the fallback chain.
- `super_smart.dfy`, `balanced.dfy`, `concise.dfy`, `mock.dfy`, `multi_ai.dfy`, `standalone.dfy`, `openai_server.dfy`: one module per chat file.
- `js.dfy`: JavaScript values, truthiness, object spread, `parseInt` and the decimal text of an integer.
- `catalog.dfy`: products and the `findIndex`/`filter` queries by id.
- `product_form.dfy`: the product form's collection and validation.
- `shop_server.dfy`, `shop_client.dfy`, `storefront.dfy`: the three product stores.

## Model

| member | source | states |
|---|---|---|
| Rules.FirstMatch | MindSparkAI/concise-server.js:86-217 | the index found is of a rule that holds, every earlier rule fails, and None means that no rule holds |
| Rules.RuleWins | MindSparkAI/concise-server.js:86-217 | first match wins: a rule that holds, with no earlier rule holding, picks the template |
| Rules.DefaultWhenNoRule | MindSparkAI/concise-server.js:215-217 | when no rule holds, the unconditional default template is used |
| Rules.Respond | MindSparkAI/mock-server.js:521-553 | every generator is total and its reply is never empty |
| Rules.Pick | MindSparkAI/standalone-script.js:163 | `Math.floor(Math.random() * n)` is a valid index below n and is the floor of roll times n |
| Rules.ChoiceIgnoresCase | MindSparkAI/super-smart-server.js:102 | the template chosen for a message is the one chosen for its lowered form |
| Rules.EchoKeepsMessage | MindSparkAI/super-smart-server.js:540 | an echoing template puts the original message, not its lowered form, into the reply, so the reply contains it |
| Rules.RollIrrelevant | MindSparkAI/standalone-script.js:89 | a table with no random template gives the same reply whatever the random number |
| Text.ContainsLowered | app.js:196-199 | an occurrence of a text survives lowering both sides, so matching on lowered text ignores case |
| Text.TrimEmptyIffAllSpace | MindSparkAI/standalone-script.js:60-61 | `trim()` leaves the empty string exactly when the input is white space only |
| Text.Lower | MindSparkAI/super-smart-server.js:102 | `toLowerCase` keeps the length and lowers each character on its own |
| Text.Trim | shop-app/public/app.js:164-167 | what `trim()` keeps starts and ends with a visible character and is a piece of the input |
| SuperSmartServer.GenerateSuperSmartResponse | MindSparkAI/super-smart-server.js:101-584 | the generator is total and never empty |
| SuperSmartServer.Precedence | MindSparkAI/super-smart-server.js:105-538 | the reply is DOM guide, else functions tutorial, else programming echo, else default echo, tested in that order on the lowered message |
| SuperSmartServer.EchoesUnlessGuide | MindSparkAI/super-smart-server.js:460-540 | when neither guide applies, the reply contains the message verbatim |
| SuperSmartServer.DomBeforeFunctions | MindSparkAI/super-smart-server.js:105-252 | a message with "dom", "function" and "javascript" passes the functions test but gets the DOM guide |
| SuperSmartServer.DomBeforeFunctionsOrNot | MindSparkAI/super-smart-server.js:105 | "dom" with "javascript" gets the DOM guide whatever else the message says |
| SuperSmartServer.RandomJavascriptGetsDomGuide | MindSparkAI/super-smart-server.js:105 | "random javascript" gets the DOM guide through the "dom" inside "random" |
| SuperSmartServer.TryGroqAI | MindSparkAI/super-smart-server.js:49-97 | a value exactly when the key is set and the call succeeds, and then it is the badge followed by the content |
| SuperSmartServer.Chat | MindSparkAI/super-smart-server.js:24-46 | Groq's badged content on success, the local reply otherwise, and never empty |
| SuperSmartServer.ChatIsChain | MindSparkAI/super-smart-server.js:33-45 | the handler is a one-stage chain: Groq is called once when it has a key and never otherwise |
| BalancedServer.GenerateBalancedResponse | MindSparkAI/balanced-smart-server.js:100-398 | the generator is total and never empty |
| BalancedServer.Precedence | MindSparkAI/balanced-smart-server.js:104-372 | the reply is todo, else DOM, else functions, else programming echo, else default echo, tested in that order |
| BalancedServer.EchoesUnlessGuide | MindSparkAI/balanced-smart-server.js:319-374 | when no guide applies, the reply contains the message verbatim |
| BalancedServer.TodoFirst | MindSparkAI/balanced-smart-server.js:104 | "todo" with "app" or "build" gets the todo guide whatever else is asked |
| BalancedServer.BuildTodoAppGetsTodoGuide | MindSparkAI/balanced-smart-server.js:104 | "how do i build a todo app" gets the todo guide |
| BalancedServer.TodoBeatsProgramming | MindSparkAI/balanced-smart-server.js:104-319 | "todo app javascript help" passes the programming test but gets the todo guide |
| BalancedServer.TryGroqAI | MindSparkAI/balanced-smart-server.js:49-96 | a value exactly when the key is set and the call succeeds, and then it is the badge followed by the content |
| BalancedServer.Chat | MindSparkAI/balanced-smart-server.js:24-46 | Groq's badged content on success, the local reply otherwise, and never empty |
| BalancedServer.ChatIsChain | MindSparkAI/balanced-smart-server.js:33-45 | Groq is called once when it has a key and never otherwise, and the reply is the chain's |
| ConciseServer.GenerateConciseResponse | MindSparkAI/concise-server.js:86-232 | the generator is total and never empty |
| ConciseServer.Precedence | MindSparkAI/concise-server.js:90-215 | the reply is todo, else dom, function, array, event, css/style, else default echo, tested in that order |
| ConciseServer.SnippetsIgnoreMessage | MindSparkAI/concise-server.js:90-194 | once any topic test holds, the reply is one of the six fixed snippets: only the default echoes |
| ConciseServer.StyleMeansCss | MindSparkAI/concise-server.js:194 | "style" alone, with no earlier topic, gets the CSS snippet |
| ConciseServer.DomEventGetsDomSnippet | MindSparkAI/concise-server.js:115-175 | "dom event" gets the DOM snippet, the earlier of its two topics |
| ConciseServer.TryGroqAI | MindSparkAI/concise-server.js:43-83 | a value exactly when the key is set and the call succeeds, and then it is the badge followed by the content |
| ConciseServer.Chat | MindSparkAI/concise-server.js:24-40 | the local generator runs exactly when Groq gave nothing, and the reply is never empty |
| ConciseServer.ChatIsChain | MindSparkAI/concise-server.js:30-39 | Groq is called once when it has a key and never otherwise, and the reply is the chain's |
| MockServer.GenerateSmartResponse | MindSparkAI/mock-server.js:45-554 | the generator is total and never empty |
| MockServer.Chat | MindSparkAI/mock-server.js:25-42 | every reply is the local generator's reply, never empty; the handler consults no provider |
| MockServer.Precedence | MindSparkAI/mock-server.js:49-521 | the reply follows the eight rules in source order: functions, usage, fundamentals, web, debugging, greeting, how-are-you, default |
| MockServer.EchoesUnlessFixed | MindSparkAI/mock-server.js:193-523 | the fundamentals, web, debugging and default replies contain the message verbatim |
| MockServer.ThisIsAGreeting | MindSparkAI/mock-server.js:460 | "this" is answered with the greeting, because it contains "hi" |
| MockServer.HeyAsksHowAreYou | MindSparkAI/mock-server.js:499 | "hey, how are you" passes the how-are-you test |
| MockServer.GreetingBeforeWellbeing | MindSparkAI/mock-server.js:460-499 | "hey, how are you" still gets the greeting, whose rule comes first |
| MultiAiServer.GenerateSmartResponse | MindSparkAI/multi-ai-server.js:190-234 | the generator is total and never empty |
| MultiAiServer.Precedence | MindSparkAI/multi-ai-server.js:194-233 | the reply is the functions text, else the programming echo, else the default echo, tested in that order |
| MultiAiServer.EchoesUnlessFunctions | MindSparkAI/multi-ai-server.js:219-233 | every reply except the functions text contains the message verbatim |
| MultiAiServer.JavascriptAloneIsProgramming | MindSparkAI/multi-ai-server.js:219 | "javascript" without "function", in any case, gets the programming echo |
| MultiAiServer.TryGroq | MindSparkAI/multi-ai-server.js:106-152 | a value exactly when the key is set and the call succeeds, and then it is the Groq badge followed by the content |
| MultiAiServer.TryHuggingFace | MindSparkAI/multi-ai-server.js:156-187 | a value exactly when the key is set and the call succeeds, and then it is the Hugging Face badge followed by the content |
| MultiAiServer.TryAIProviders | MindSparkAI/multi-ai-server.js:61-103 | the reply is never empty |
| MultiAiServer.Stages | MindSparkAI/multi-ai-server.js:64-98 | OpenAI, Groq and Hugging Face are three distinct stages |
| MultiAiServer.TryAIProvidersIsChain | MindSparkAI/multi-ai-server.js:61-103 | the provider code is the ordered fallback chain OpenAI, Groq, Hugging Face, then the badged local reply |
| MultiAiServer.Chat | MindSparkAI/multi-ai-server.js:42-58 | the reply is the chain's and is never empty |
| MultiAiServer.NoProviderCalledTwice | MindSparkAI/multi-ai-server.js:61-103 | no provider is called twice for one message |
| MultiAiServer.OpenAISuccessCallsNoOther | MindSparkAI/multi-ai-server.js:81 | when OpenAI answers, neither Groq nor Hugging Face is called |
| MultiAiServer.QuotaExceededFallsThrough | MindSparkAI/multi-ai-server.js:83-89 | an OpenAI 429 gives the same reply as having no OpenAI client at all |
| MultiAiServer.NoKeysMeansLocal | MindSparkAI/multi-ai-server.js:102 | with no credentials the badged local reply is sent and nothing is called |
| StandaloneScript.GenerateSmartResponse | MindSparkAI/standalone-script.js:79-164 | the generator is total and never empty for every value of the random number |
| StandaloneScript.Precedence | MindSparkAI/standalone-script.js:83-163 | the reply follows greeting, todo, DOM, JavaScript, then the general replies, with both random picks |
| StandaloneScript.GreetingIsOneOfThree | MindSparkAI/standalone-script.js:83-90 | a greeting gets one of exactly three fixed texts |
| StandaloneScript.GeneralEchoes | MindSparkAI/standalone-script.js:153-163 | each general reply contains the message verbatim, whichever is picked |
| StandaloneScript.TopicsIgnoreRoll | MindSparkAI/standalone-script.js:93-150 | outside the greeting and the general replies, the random number plays no part |
| StandaloneScript.GreetingBeforeTodo | MindSparkAI/standalone-script.js:83-93 | "hi, build a todo app" gets a greeting |
| StandaloneScript.HiBuildTodoAppAsksForTodo | MindSparkAI/standalone-script.js:93 | "hi, build a todo app" passes the todo test, which comes too late |
| StandaloneScript.JsonGetsJavaScriptHelp | MindSparkAI/standalone-script.js:118-138 | "json" gets the JavaScript help, because it contains "js" |
| StandaloneScript.ChatPage.Send | MindSparkAI/standalone-script.js:59-65 | blank input sends nothing and leaves the history unchanged; otherwise the trimmed text is sent and recorded as the user's entry |
| StandaloneScript.ChatPage.Answer | MindSparkAI/standalone-script.js:71-75 | the generator's reply is recorded as the bot's entry |
| StandaloneScript.ChatPage.Clear | MindSparkAI/standalone-script.js:43-49 | the history is emptied exactly when the user confirms |
| StandaloneScript.LeadingSpaceIrrelevant | MindSparkAI/standalone-script.js:60 | white space typed before a message never changes what is sent |
| OpenAiServer.ErrorText | MindSparkAI/server.js:74-86 | status 429, 401 and 403 each map to their own fixed text, and only they do; any other failure gets "Error: " plus the message |
| OpenAiServer.Chat | MindSparkAI/server.js:48-89 | status 200 exactly on success, with the content unchanged; every failure gets 500 and a non-empty reply |
| OpenAiServer.KnownStatusIgnoresMessage | MindSparkAI/server.js:74-82 | a 429, 401 or 403 is reported the same way whatever its message |
| OpenAiServer.UnknownFailureReportsMessage | MindSparkAI/server.js:83-86 | any other failure reports "Error: " plus its message, or the stock text when the message is empty |
| OpenAiServer.ThrownErrorIsNeverRateLimit | MindSparkAI/server.js:74-76 | a thrown error without a status is never reported as a rate limit, whatever its message |
| Providers.TryProvider | MindSparkAI/multi-ai-server.js:106-152 | null with no key, on a non-ok status or on a throw; the badge plus the content on success |
| Providers.BadgedSuccessIsTruthy | MindSparkAI/multi-ai-server.js:94 | with a non-empty badge, an `if (reply)` test never discards a success |
| Providers.Chain | MindSparkAI/multi-ai-server.js:61-103 | the reply is the first successful stage's badged content, else the local reply; the providers called are the enabled ones up to that stage |
| Providers.ChainNoRetry | MindSparkAI/multi-ai-server.js:61-103 | with distinct providers, no provider is called twice |
| Providers.ChainSkipsDisabled | MindSparkAI/multi-ai-server.js:107 | a provider without a credential is never called |
| Providers.ChainStopsAtFirstSuccess | MindSparkAI/multi-ai-server.js:94-98 | no provider ranked after the first success is called |
| Providers.ChainTotal | MindSparkAI/multi-ai-server.js:102 | with non-empty badges and local reply, the chain's reply is never empty |
| Providers.FailureAbsorbed | MindSparkAI/multi-ai-server.js:83-89 | a failing stage gives the same reply as a disabled one |
| Js.Spread | shop-app/server.js:36 | object spread has the keys of both objects, and the right one wins on shared keys |
| Catalog.IndexOfId | shop-app/server.js:34 | `findIndex` returns the first index with that id, and None exactly when no product has it |
| Catalog.WithoutId | shop-app/server.js:46 | `filter` on a different id keeps exactly the products with another id |
| Catalog.WithoutIdAppend | shop-app/server.js:46 | the survivors stay in their original order |
| Catalog.WithoutIdIdempotent | shop-app/public/app.js:149 | deleting the same id twice is deleting it once |
| Catalog.WithoutIdShrinks | shop-app/server.js:46 | deleting an id that occurs removes at least one product |
| Js.ParseInt | shop-app/server.js:33 | blank text parses to NaN, and only a leading minus gives a negative number |
| Js.Decimal | shop-app/public/app.js:144 | the text of an integer id starts with a minus sign or a digit and is never empty |
| Catalog.IdTextRoundTrip | shop-app/public/app.js:144 | `parseInt` on the server reads back exactly the integer id the client wrote into the URL, for every id JavaScript writes in plain digits (magnitude below 10^21) |
| ShopServer.NewProduct | shop-app/server.js:26 | the new product has the clock id unless the body carries its own `id`, which wins, and all body fields |
| ShopServer.ParamId | shop-app/server.js:33 | the id a path parameter selects is `parseInt` of it, and there is none exactly when that is NaN |
| ShopServer.PutIndex | shop-app/server.js:33-35 | the first index whose id equals `parseInt(param)`, and None when there is none or the parameter is NaN |
| ShopServer.Deleted | shop-app/server.js:45-46 | exactly the products with another id survive, and a NaN parameter deletes nothing |
| ShopServer.ProductStore.constructor | shop-app/server.js:16 | the list starts empty |
| ShopServer.ProductStore.GetAll | shop-app/server.js:19-22 | the current list, unchanged |
| ShopServer.ProductStore.Post | shop-app/server.js:24-29 | exactly one product is appended at the end, and it is returned with status 201 |
| ShopServer.ProductStore.Put | shop-app/server.js:31-41 | only the first matching entry is replaced by the merge of its fields and the body; with no match the answer is 404 and nothing changes |
| ShopServer.ProductStore.DeleteById | shop-app/server.js:43-48 | the list without that id, and the same answer whether or not anything matched |
| ShopServer.ProductStore.DeleteAll | shop-app/server.js:50-54 | the list is empty |
| ShopServer.PutKeepsId | shop-app/server.js:36 | a PUT whose body has no `id` keeps the product's id |
| ShopServer.DeleteByIntegerId | shop-app/server.js:45-46 | deleting by the decimal text of an integer id below 10^21 in magnitude removes exactly the products with that id |
| ShopServer.NotANumberChangesNothing | shop-app/server.js:33-46 | a parameter that is not a number deletes nothing and updates nothing |
| ProductForm.PriceValue | shop-app/public/app.js:165 | the price is truthy exactly when it parsed to a number other than 0 |
| ProductForm.Collect | shop-app/public/app.js:163-168 | each field comes from its own input: name, image and description are the trimmed inputs, with no white space at either end, and the price is the parsed price |
| ProductForm.Valid | shop-app/public/app.js:173 | a valid form has no required field missing: name and image are not empty, the price is neither null nor 0 |
| ProductForm.ValidIff | shop-app/public/app.js:173-176 | a submit goes ahead exactly when the name and image are not blank and the price is a non-zero number |
| ProductForm.DescriptionIrrelevant | shop-app/public/app.js:173 | the description never decides whether a submit goes ahead |
| ShopClient.ReplaceFirst | shop-app/public/app.js:195-199 | only the first entry with that id is replaced, the length is kept, and the list is unchanged when the id is missing |
| ShopClient.ProductPage.constructor | shop-app/public/app.js:12-13 | an empty list and no edit in progress |
| ShopClient.ProductPage.Load | shop-app/public/app.js:62-76 | an ok answer replaces the whole list; a failure leaves it |
| ShopClient.ProductPage.AddProduct | shop-app/public/app.js:79-113 | only an ok answer appends, and what it appends is the server's product |
| ShopClient.ProductPage.StartEdit | shop-app/public/app.js:116-120 | an unknown id changes nothing; otherwise edit mode starts for that id |
| ShopClient.ProductPage.CancelEdit | shop-app/public/app.js:131-132 | edit mode ends and the list is unchanged |
| ShopClient.ProductPage.Delete | shop-app/public/app.js:140-155 | after a confirmed, ok DELETE every entry with that id is removed; otherwise nothing changes |
| ShopClient.ProductPage.ClearAll | shop-app/public/app.js:216-231 | after a confirmed, ok DELETE the list is empty; otherwise nothing changes |
| ShopClient.ProductPage.Submit | shop-app/public/app.js:159-210 | an invalid form is refused; an update replaces the first entry with that id and ends edit mode; an add appends the server's product; a failed request changes nothing |
| ShopClient.ReplaceMissing | shop-app/public/app.js:196 | updating an id the list lacks changes nothing |
| ShopClient.ReplaceKeepsIds | shop-app/public/app.js:197 | replacing the edited product with the server's copy keeps every id where it was |
| Storefront.Matches | app.js:196-199 | a hit exactly when the lowered name contains the term or the lowered description does; None when a property read is not a string |
| Storefront.Filter | app.js:196 | the kept products all pass the callback, and there are no more of them than in the list |
| Storefront.Hits | app.js:196-199 | every hit matches the term |
| Storefront.FilterThrows | app.js:196-199 | the filter throws exactly when the callback throws on some product |
| Storefront.FilterMembers | app.js:196-199 | the filter keeps exactly the listed products the callback accepts |
| Storefront.FilterAppend | app.js:196-199 | the kept products stay in their original relative order |
| Storefront.SearchResult | app.js:189-199 | a blank term shows the whole list; otherwise exactly the listed products whose name or description contains the lowered, trimmed term |
| Storefront.Shop.constructor | app.js:12 | the list starts empty |
| Storefront.Shop.Load | app.js:62-76 | an ok answer replaces the whole list; a failure leaves it |
| Storefront.Shop.AddProduct | app.js:79-113 | only an ok answer appends the server's product |
| Storefront.Shop.Submit | app.js:117-143 | an invalid form is refused before any request; otherwise the product is added on an ok answer and nothing changes on failure |
| Storefront.Shop.Search | app.js:187-208 | shows the search result, and the list afterwards equals the list before |
| Storefront.BlankSearchShowsAll | app.js:189-194 | an empty or white-space-only term shows the whole list |
| Storefront.SearchIgnoresCase | app.js:189 | the search ignores the case of what is typed |
| Storefront.NameHitIgnoresCase | app.js:197 | a product whose name contains the typed text, in any case, is a hit |

## Left out

- All DOM and browser code: rendering, `addMessage`, the typing animation, alerts, dark mode and `form.reset`. `confirm` is a boolean parameter.
- Logging (`console.*`) is left out.
- Network calls and the OpenAI SDK are `Outcome` or `Fetch` values.
  - The SDK's own `maxRetries` and `timeout` are library behaviour, and each SDK call is one outcome.
  - A provider's generated text is taken to be a string; a `null` content is not modelled.
- `process.env` and dotenv are `Option<string>` credentials.
  - The multi-provider server's OpenAI client, built once at startup, is its `openaiKey`.
- Clocks and randomness are parameters: `Date.now()` ids, the `setTimeout` delay, `Math.random()`.
- The chat history's time stamps and its `localStorage` save and load, including `JSON.parse` of the stored history, are left out.
- Reply templates are abbreviated to their heading line. Where a template echoes the message, the text on either side of `${message}` on that line is kept exactly.
- `toLowerCase` lowers ASCII letters only; other characters are left as they are.
- `parseFloat` is abstracted to a `Price` that is NaN or a finite number, so floating point is not modelled.
- The chat handlers are modelled for a string `message` only. A request without one is not modelled:
  - the super smart, balanced, concise, mock and multi-provider servers throw in `toLowerCase` once their local generator is reached, after any provider calls, which are then made without content;
  - MindSparkAI/server.js does not lower the message: it sends the undefined content to OpenAI, and the failure takes its error path, answering 500 with "Error: " and the error's message.
- The browser-side chat script `MindSparkAI/script.js`, the debugging notes, the two smoke-test files and the C# identity files are not part of this model.
- Express wiring, CORS, static serving and the catch-all route are left out.
- Storefront.Shop.Search: the temporary swap of the list (it is assigned the hits, rendered, then restored) is modelled, but the rendering in between is not.
- ShopClient.ProductPage.Submit: each browser event handler is modelled as one step that runs without interleaving at its `await` points. The source reads `editingId` for the PUT URL before the request and again for `findIndex` after the answer arrives. A `startEditProduct` or `cancelEdit` running while the PUT is in flight could change which entry is replaced, or leave none replaced. The model uses the value from the start of the submit for both reads.
- ShopClient.ProductPage.Delete, ShopClient.ProductPage.Load and ShopClient.ProductPage.ClearAll: also modelled without interleaving at `await`. Another handler that changes `products` while the request is in flight is not captured.
- Catalog.IdTextRoundTrip, ShopServer.ParamOfIntegerId and ShopServer.DeleteByIntegerId: stated only for ids below 10^21 in magnitude. From there on `String(n)` writes exponent notation (`1e+21`), which `parseInt` reads as its leading digits. JavaScript's 64-bit number width is not modelled either: ids are unbounded integers.
- ShopClient.ProductPage.Submit: the rethrown error from `addProduct` and the alert it shows are folded into the `Errored` outcome.
