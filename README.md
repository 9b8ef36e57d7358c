# FinSight core, modelled in Dafny

FinSight links a user's bank accounts through the CODEF aggregation API and
analyses their spending with rule-based and LLM-driven agents. This project
models and proves properties of the two halves of its core:

- **The Kotlin side.**
  - `CodefClient`, the gateway to CODEF:
    - the OAuth2 client-credentials token request with its HTTP Basic header;
    - the connected-id registration and its JSON body;
    - the account list, with the response-envelope checks.
  - `CodefTokenService`, a one-slot token cache with a double-checked refresh.
  - `UserService`, the in-memory user registry keyed by email, which stores each user's CODEF connected id.
- **The Python agent side.**
  - The rule-based `analyze_simple` of `main.py`: category totals, total, top three, nickname and insights.
  - The tools `analyze_spending` and `generate_report`.
  - `BaseAIAgent`: tool list, tool description, tool dispatch, plan extraction from the LLM reply, and `act`.
  - The orchestrator's workflow parsing, and `MultiAgentSystem.execute`, which runs a workflow step by step with a shared context.
  - The LLM provider factory `create_provider`.

## How the model is built

- **State and methods.**
  - State the source mutates is a class field: `CodefTokenService.cachedToken`, `UserService.userStore`, `BaseAIAgent.tools`.
  - Each operation that updates state is a method whose `ensures` gives the whole new state.
  - Where the source loops, the model loops too, and each loop is proved against a specification function:
    - the aggregation in `analyze_simple` and `analyze_spending`;
    - the tool lookup and description;
    - `act` and `execute`;
    - the provider fallback.
- **Dictionaries.**
  - Python dicts are insertion-ordered sequences of pairs (module `Dicts`).
  - Assigning to an existing key keeps its position.
  - So "first maximal key" and "order of first appearance" can be stated and proved.
- **Outside inputs.**
  - Clock readings and the generated UUID are parameters.
  - HTTP answers are `Exchange` values: a body, possibly absent, or the exception thrown.
  - LLM replies, `json.loads`, `json.dumps`, the tools' own `execute` and an agent's `process` are function parameters.
- **Time.**
  - An `Instant` is an integer count of nanoseconds, the resolution of `LocalDateTime`.
  - A token expires at `issuedAt + expiresIn` seconds.
- **Standards.**
  - The Basic header follows section 2 of RFC 7617.
  - Its base64 follows RFC 4648, and its UTF-8 follows RFC 3629.
  - Both encodings are modelled far enough to prove that the header decodes back to `clientId:clientSecret`.

**Edge cases the code decides.**

- **Expiry boundary.** `isExpired` uses the strict `isAfter` (libs/common-domain/src/main/kotlin/com/finsight/domain/codef/Codef.kt:12-15), so the expiry instant itself is still valid (`Codef.ExpiryBoundary`).
- **`act` can raise.** The `try` at apps/agent/ai_agent_system.py:281-294 records a success or failure per action, but `action.get(...)` at :276-277 and the iteration at :275 sit outside it. So a plan whose "actions" are not all dicts makes `act` raise AttributeError, and "actions" that cannot be iterated (a number, say) raise TypeError (`AgentCore.BaseAIAgent.Act`).

## Model

| member | source | states |
|---|---|---|
| Codef.ExpiryBoundary | libs/common-domain/src/main/kotlin/com/finsight/domain/codef/Codef.kt:12-15 | a token is still valid at exactly `issuedAt + expiresIn` and expired one tick later |
| Codef.ExpiryMonotone | libs/common-domain/src/main/kotlin/com/finsight/domain/codef/Codef.kt:12-15 | once expired, a token stays expired at every later clock reading |
| Codef.TokenTypeDefault | libs/common-domain/src/main/kotlin/com/finsight/domain/codef/Codef.kt:5-11 | a token built without a type is a "Bearer" token |
| Codef.SuccessOnlyForSentinel | libs/common-domain/src/main/kotlin/com/finsight/domain/codef/Codef.kt:33 | a result is a success exactly when its code is "CF-00000" |
| UserDomain.ThreeProviders | libs/common-domain/src/main/kotlin/com/finsight/domain/user/User.kt:17-21 | the auth provider is GOOGLE, KAKAO or NAVER |
| UserDomain.UserDefaults | libs/common-domain/src/main/kotlin/com/finsight/domain/user/User.kt:6-16 | a new user record has no picture and no connected id unless given |
| UserDomain.RegistrationDefaults | libs/common-domain/src/main/kotlin/com/finsight/domain/user/User.kt:23-31 | a registration defaults to login type "1" with no certificate file or password |
| Base64.EncodeLength | libs/common-infra/src/main/kotlin/com/finsight/infra/codef/CodefClient.kt:20-21 | padded base64 text is 4 characters per started group of 3 bytes |
| Base64.DecodeEncode | libs/common-infra/src/main/kotlin/com/finsight/infra/codef/CodefClient.kt:20-21 | decoding the base64 of any bytes gives those bytes back |
| Utf8.DecodeEncode | libs/common-infra/src/main/kotlin/com/finsight/infra/codef/CodefClient.kt:21 | decoding the UTF-8 bytes of any string gives the string back |
| CodefClient.TokenCall | libs/common-infra/src/main/kotlin/com/finsight/infra/codef/CodefClient.kt:19-33 | the token request goes to /v1/oauth/2.0/token, form-encoded, with the fields grant_type=client_credentials and scope=read and the Basic authorization of the credentials |
| CodefClient.BasicAuthorizationDecodes | libs/common-infra/src/main/kotlin/com/finsight/infra/codef/CodefClient.kt:20-30 | the Authorization header is "Basic " plus text that decodes (base64, then UTF-8) to exactly `clientId:clientSecret` |
| CodefClient.CredentialsSplitAtFirstColon | libs/common-infra/src/main/kotlin/com/finsight/infra/codef/CodefClient.kt:20-21 | when the client id has no colon, the first colon of the pair separates id and secret again |
| CodefClient.IssueToken | libs/common-infra/src/main/kotlin/com/finsight/infra/codef/CodefClient.kt:28-35 | the token is the body when present; an absent body fails with "Failed to issue token"; a thrown failure propagates |
| CodefClient.CheckEnvelope | libs/common-infra/src/main/kotlin/com/finsight/infra/codef/CodefClient.kt:52-65 | succeeds exactly for a present body with the success code; otherwise fails with the no-body message or "CODEF API error: code - message" |
| CodefClient.BuildConnectedIdBody | libs/common-infra/src/main/kotlin/com/finsight/infra/codef/CodefClient.kt:42-50 | the body has the five request fields, plus certFile and certPassword exactly when they are set, with the request's values |
| CodefClient.ConnectedIdReply | libs/common-infra/src/main/kotlin/com/finsight/infra/codef/CodefClient.kt:52-74 | succeeds exactly when the envelope is good, the data is an object and its connectedId is a string; the result echoes the request's organization; non-object data fails with "Invalid response data" |
| CodefClient.CreateConnectedId | libs/common-infra/src/main/kotlin/com/finsight/infra/codef/CodefClient.kt:38-75 | sends a Bearer-authenticated JSON request to /v1/account/create whose body holds the request's five fields, and its certificate fields exactly when set, and reads the answer as `ConnectedIdReply` |
| CodefClient.AccountsCall | libs/common-infra/src/main/kotlin/com/finsight/infra/codef/CodefClient.kt:77-88 | the account-list body has exactly the connected id and organization "0004" |
| CodefClient.GetAccounts | libs/common-infra/src/main/kotlin/com/finsight/infra/codef/CodefClient.kt:83-99 | fails exactly when the envelope check fails; a list payload is returned as is, any other payload as the empty list |
| CodefTokens.ValidToken | apps/api/src/main/kotlin/com/finsight/api/codef/CodefTokenService.kt:24-48 | issues a token exactly when both checks miss; a fresh cached token is returned and kept; a new token replaces the cache; a failed issuance propagates and keeps the cache; a returned cached token was unexpired at the check that accepted it |
| CodefTokens.Refreshed | apps/api/src/main/kotlin/com/finsight/api/codef/CodefTokenService.kt:53-61 | always issues; success replaces the cache with the new token, failure leaves the cache |
| CodefTokens.CodefTokenService.constructor | apps/api/src/main/kotlin/com/finsight/api/codef/CodefTokenService.kt:12-19 | the cache starts empty |
| CodefTokens.CodefTokenService.GetValidToken | apps/api/src/main/kotlin/com/finsight/api/codef/CodefTokenService.kt:24-48 | result and new cache are those of `ValidToken`; the token request is sent exactly when a token is issued |
| CodefTokens.CodefTokenService.RefreshToken | apps/api/src/main/kotlin/com/finsight/api/codef/CodefTokenService.kt:53-61 | result and new cache are those of `Refreshed`; the token request is always sent |
| CodefTokens.RecheckAgreesWithFirstCheck | apps/api/src/main/kotlin/com/finsight/api/codef/CodefTokenService.kt:26-39 | with a clock that does not go back, the double check never rescues a token: issuance happens exactly when the first check misses |
| CodefTokens.IssuedTokenIsReused | apps/api/src/main/kotlin/com/finsight/api/codef/CodefTokenService.kt:24-48 | a token obtained once is served from the cache, without issuance, while it is unexpired |
| CodefTokens.RefreshThenGet | apps/api/src/main/kotlin/com/finsight/api/codef/CodefTokenService.kt:53-61 | after a successful refresh, `getValidToken` returns the refreshed token without issuing while it is unexpired |
| Users.NewUser | apps/api/src/main/kotlin/com/finsight/api/user/UserService.kt:41-48 | a new user takes the email and fresh id, name defaulting to "Unknown", providerId to "", provider GOOGLE, the picture, no connected id, and its two timestamps from two clock readings |
| Users.UserService.constructor | apps/api/src/main/kotlin/com/finsight/api/user/UserService.kt:18-25 | the store starts empty and keyed by email |
| Users.UserService.SaveOrUpdateUser | apps/api/src/main/kotlin/com/finsight/api/user/UserService.kt:30-53 | a missing email fails with "Email not found in OAuth2 user" and changes nothing; a known email returns its user with `updatedAt` refreshed; an unknown one creates `NewUser`; the result is stored under its email; emails key the store and ids stay unique for a fresh id |
| Users.UserService.FindByEmail | apps/api/src/main/kotlin/com/finsight/api/user/UserService.kt:58 | finds a user exactly when the email is a key, and returns that entry |
| Users.UserService.FindById | apps/api/src/main/kotlin/com/finsight/api/user/UserService.kt:67-68 | finds nothing exactly when no stored user has the id; otherwise a stored user with that id |
| Users.UserService.RegisterCodefConnection | apps/api/src/main/kotlin/com/finsight/api/user/UserService.kt:63-87 | an unknown id fails with "User not found: id" without consulting the token service; otherwise one token step, whose failure is returned; the CODEF answer is `ConnectedIdReply`; CODEF is asked exactly when a token was obtained, with a Bearer header of that token and the caller's request as body; failures leave the store; success overwrites exactly that user's connected id and update time |
| Users.UserService.GetUserAccounts | apps/api/src/main/kotlin/com/finsight/api/user/UserService.kt:92-101 | an unknown id and a user without connection fail without touching the token service; otherwise one token step and the accounts of `GetAccounts`, requested with the user's stored connected id |
| Spending.TotalsGet | apps/agent/main.py:48-50 | after the aggregation loop, a category has an entry exactly when it occurs, and the entry is its amount sum |
| Spending.TotalsDistinct | apps/agent/main.py:48-50 | each category has a single entry |
| Spending.TotalsKeys | apps/agent/main.py:48-50 | the keys are exactly the categories that occur |
| Spending.TotalsOrder | apps/agent/main.py:48-50 | keys come in order of the categories' first appearance in the transactions |
| Spending.SumValuesTally | apps/agent/main.py:50 | one aggregation step adds the transaction's amount to the sum of the dict's values |
| Spending.TotalsSum | apps/agent/main.py:52 | the category totals add up to the sum of all amounts |
| Spending.ArgMax | apps/agent/ai_agent_system.py:113 | `max(d, key=d.get)` is the first key with the largest value |
| Ranking.SortDescPerm | apps/agent/main.py:55 | sorting permutes the category totals |
| Ranking.SortDescSorted | apps/agent/main.py:55 | sorting orders by non-increasing amount |
| Ranking.SortDescStable | apps/agent/main.py:55 | for every amount, entries with that amount keep their relative order (stable sort with `reverse=True`) |
| Ranking.SortDescKeepsTies | apps/agent/main.py:55 | two sorted entries with equal amounts appear in their original order |
| Ranking.SortDescDistinct | apps/agent/main.py:55 | sorting keeps categories distinct |
| AgentServer.Top3 | apps/agent/main.py:55 | the top list has three entries, or all of them when there are fewer |
| AgentServer.AnyCategory | apps/agent/main.py:68 | true exactly when some top category has that name |
| AgentServer.Nickname | apps/agent/main.py:65-73 | the rules in order: cafe first gives the cafe nickname; else online shopping anywhere; else subscription anywhere; else balanced |
| AgentServer.Insights | apps/agent/main.py:80-84 | three insight lines: the decimal count of transactions, the first top category's name (or "거래 내역이 없습니다" without one), and the total in `{:,}` grouping, each inside its fixed text |
| Text.GroupedDigits | apps/agent/main.py:83 | the `{:,}` format is the decimal text of the number once the commas are removed |
| AgentServer.SumByCategory | apps/agent/main.py:48-50 | the loop leaves the per-category totals dict that `Spending.TotalsGet`, `TotalsOrder` and `TotalsSum` characterise |
| AgentServer.AnalyzeSimple | apps/agent/main.py:43-92 | the aggregation loop followed by the summary gives the analysis of the request |
| AgentServer.AnalysisShape | apps/agent/main.py:75-92 | the result echoes user and month and keeps the fixed advice; its total is the sum of all amounts; its insights give the number of transactions, name the first top category, and show that sum grouped |
| AgentServer.TopCategoriesOrdered | apps/agent/main.py:55-63 | at most three top categories, distinct and non-increasing in amount |
| AgentServer.TopCategoriesTotals | apps/agent/main.py:48-63 | each top category occurs in the transactions and carries its total |
| AgentServer.TopCategoriesLargest | apps/agent/main.py:55 | a category missing from the top is there only because three categories spend at least as much |
| AgentServer.TopCategoriesTies | apps/agent/main.py:48-55 | top categories with equal totals are in order of first appearance |
| AgentServer.EmptyAnalysis | apps/agent/main.py:48-92 | no transactions: no top categories, total 0, the balanced nickname and the "no transactions" insight |
| AgentServer.Analyze | apps/agent/main.py:108-120 | the endpoint answers with `analyze_simple`'s result (for requests whose percentages fit a float; see "Left out") |
| AgentServer.AnalyzeWithLlm | apps/agent/main.py:122-130 | always fails with status 501 and the "not implemented" detail |
| AgentTools.ToDict | apps/agent/ai_agent_system.py:42-48 | the spec has keys name, description, parameters in that order, holding the tool's name, description and parameters |
| AgentTools.AnalyzeSpending | apps/agent/ai_agent_system.py:99-114 | the total of all amounts, the category totals, the count, and as top category the first key with the largest total, none exactly without transactions |
| AgentTools.SpendingSummaryFacts | apps/agent/ai_agent_system.py:102-114 | the category totals add up to the total; the top category occurs, has the largest total, and appears first among equal totals |
| AgentTools.GenerateReport | apps/agent/ai_agent_system.py:130-153 | the report carries the requested format, its size is the length of its content, and the total line sits right after the page head |
| AgentTools.ReportIgnoresFormat | apps/agent/ai_agent_system.py:133-147 | the page is the same HTML whatever format is requested |
| AgentCore.FindTool | apps/agent/ai_agent_system.py:213-215 | the first tool whose name equals the requested name; none exactly when no tool has it |
| AgentCore.Outcome | apps/agent/ai_agent_system.py:276-294 | the recorded tool is the action's "tool"; parameters that are not a mapping or that hold "tool_name" or "self" fail with TypeError; otherwise the action succeeds exactly when dispatch does, with its result, and fails with its error; an unknown tool never succeeds |
| AgentCore.Iterate | apps/agent/ai_agent_system.py:275 | iteration yields a list's items, a string's characters and a dict's keys, and fails, always with TypeError, exactly for null, booleans and numbers |
| AgentCore.FencedBlock | apps/agent/ai_agent_system.py:253-256 | the block is the text after the first opener up to the next fence, trimmed (after a json opener: when that fence is not followed by another backtick); it contains no fence |
| AgentCore.ExtractPlanText | apps/agent/ai_agent_system.py:252-256 | a reply without a fence is parsed as is; a json fence takes precedence and its block is the text after it up to the next fence, trimmed; otherwise the same after the first bare fence; with a fence, the extracted text contains no fence |
| Text.SplitPieces | apps/agent/ai_agent_system.py:253 | `split(sep)[0]` is the text before the first separator, and `[1]` the text after it up to the next one |
| AgentCore.UpToThroughJsonFence | apps/agent/ai_agent_system.py:253 | cutting at the first json fence and then at the first fence equals cutting at the first fence, when that fence is not followed by another backtick |
| AgentCore.ExtractJsonFenced | apps/agent/ai_agent_system.py:253-254 | when the json fence after `a` is the first one, `b` holds no fence and what follows the closing fence does not start with a backtick, the block `b` is extracted and trimmed |
| AgentCore.ExtractBareFenced | apps/agent/ai_agent_system.py:255-256 | when no json fence occurs, the fence after `a` is the first one and `b` holds no fence, the block `b` is extracted and trimmed |
| AgentCore.Think | apps/agent/ai_agent_system.py:249-269 | the plan always has "reasoning"; it is the parsed reply exactly when that is a dict with "reasoning", and otherwise (and whenever the LLM raised) the fallback plan |
| AgentCore.BaseAIAgent.constructor | apps/agent/ai_agent_system.py:186-192 | name, role and tools as given |
| AgentCore.BaseAIAgent.AddTool | apps/agent/ai_agent_system.py:194-196 | appends the tool |
| AgentCore.BaseAIAgent.GetToolsDescription | apps/agent/ai_agent_system.py:198-209 | the fixed text exactly when there are no tools; otherwise one entry per tool joined by newlines, starting with "- " and the first tool's name |
| AgentCore.BaseAIAgent.ExecuteTool | apps/agent/ai_agent_system.py:211-217 | runs the first tool with that name; fails with "Tool not found" when none has it |
| AgentCore.BaseAIAgent.Act | apps/agent/ai_agent_system.py:271-299 | one result per action, in order, each the action's outcome; raises only for non-iterable actions, or with AttributeError exactly when some action is not a dict |
| AgentCore.BaseAIAgent.Process | apps/agent/ai_agent_system.py:301-304 | acts on the plan `think` produces; a failed LLM call yields the fallback reasoning and no results |
| AgentCore.FallbackActsOnNothing | apps/agent/ai_agent_system.py:264-269 | the fallback plan has the failure reasoning and no actions |
| AgentCore.UnknownToolFails | apps/agent/ai_agent_system.py:290-297 | an action naming no tool of the agent is recorded as failed with "Tool not found" |
| MultiAgent.ExtractWorkflowText | apps/agent/ai_agent_system.py:351-352 | only a json fence is stripped; any other reply is parsed as is |
| MultiAgent.WorkflowTextAgreesWithPlanText | apps/agent/ai_agent_system.py:351-352 | on a json-fenced reply (same conditions as `ExtractJsonFenced`) the orchestrator reads the same trimmed block as `think` |
| MultiAgent.Orchestrate | apps/agent/ai_agent_system.py:347-362 | the workflow is the parsed reply exactly when that is a dict whose "workflow" is absent or has a length, and otherwise (and whenever the LLM raised) the fallback; its "workflow" entry can always be iterated |
| MultiAgent.WithContext | apps/agent/ai_agent_system.py:466-468 | the task is passed as is while the context is empty; afterwards a string task gets the context appended, a list is extended by the characters of the appended text, and anything else raises TypeError |
| MultiAgent.FindAgent | apps/agent/ai_agent_system.py:457 | finds an agent exactly when the step names one of the four worker agents |
| MultiAgent.MultiAgentSystem.constructor | apps/agent/ai_agent_system.py:422-437 | the system runs its agents through the given `process` |
| MultiAgent.MultiAgentSystem.Execute | apps/agent/ai_agent_system.py:439-488 | the loop gives exactly the step fold `RunSteps`: the workflow, the results and the shared context, or the exception a step raises |
| MultiAgent.ErrorStops | apps/agent/ai_agent_system.py:452-478 | once a step raises, `execute` raises that exception |
| MultiAgent.ResultsFollowKnownSteps | apps/agent/ai_agent_system.py:452-478 | one result per step naming a worker agent, in step order; other steps are skipped |
| MultiAgent.RunStepKeepsContext | apps/agent/ai_agent_system.py:473-478 | one loop iteration keeps the shared context mapping each agent that ran to its last result |
| MultiAgent.ContextHoldsLastResults | apps/agent/ai_agent_system.py:473-478 | the shared context maps each agent that ran to its last result, once per agent, worker agents only |
| MultiAgent.StringTasksComplete | apps/agent/ai_agent_system.py:452-478 | with dict steps, string tasks and agents that do not raise, `execute` completes |
| MultiAgent.MissingTaskRaises | apps/agent/ai_agent_system.py:466-468 | a worker step without a task, once the context is non-empty, raises TypeError |
| MultiAgent.FallbackRunsNothing | apps/agent/ai_agent_system.py:360-362 | the fallback workflow has no steps, so nothing runs |
| LlmProviders.NewProvider | apps/agent/llm_providers.py:81-92 | the key is the argument when non-empty, else the environment variable; the client exists exactly for a non-empty key the SDK accepts; Gemini's model is fixed |
| LlmProviders.DefaultProvider | apps/agent/llm_providers.py:184-185 | the factory's providers use the default models, and are available only with a key in the environment |
| LlmProviders.GetName | apps/agent/llm_providers.py:71-72 | "Google Gemini 2.5 Flash", "Anthropic " + model, "OpenAI " + model |
| LlmProviders.NamesTellKindsApart | apps/agent/llm_providers.py:109-110 | providers of different kinds have different names |
| LlmProviders.Analyze | apps/agent/llm_providers.py:55-57 | without a client, "<Provider> client not initialized" is raised; with one, the SDK's answer is returned |
| LlmProviders.KindNamed | apps/agent/llm_providers.py:166-179 | exactly "gemini", "anthropic" and "openai" select a provider |
| LlmProviders.FirstAvailable | apps/agent/llm_providers.py:184-188 | the position of the first usable kind in the fallback order: it is usable, none before it is, and there is none exactly when no kind is usable |
| LlmProviders.FirstAvailableIsFirst | apps/agent/llm_providers.py:184-188 | a usable kind with no usable kind before it is the one the fallback loop returns |
| LlmProviders.ChoiceIsAvailable | apps/agent/llm_providers.py:157-191 | the factory returns only available providers, and none exactly when no provider is available |
| LlmProviders.RequestedWins | apps/agent/llm_providers.py:166-179 | a requested provider that is available is chosen |
| LlmProviders.FallbackPrefersGemini | apps/agent/llm_providers.py:181-188 | when the request cannot be served, an available Gemini is chosen |
| LlmProviders.CreateProvider | apps/agent/llm_providers.py:157-191 | the loop returns the provider of the factory's choice, or none |
| LlmProviders.GeminiIsTheDefault | apps/agent/llm_providers.py:163 | without LLM_PROVIDER, or with any capitalisation of "gemini", Gemini is requested |
| LlmProviders.SelectorIgnoresCase | apps/agent/llm_providers.py:163 | every capitalisation of a provider's selector asks for that provider |

## Left out

- **Concurrency and scheduling**
  - The read/write lock of `CodefTokenService` and the concurrent map of `UserService` are not modelled: operations run one at a time. The at-most-one-issuance guarantee under concurrency is therefore not stated.
  - Clock readings are parameters. A new user's `createdAt` and `updatedAt` are two separate readings, as `User`'s two default arguments are.
  - Users.UserService.RegisterCodefConnection: one reading `now` stands for the token service's two readings, the response's `createdAt` and the user's `updatedAt`, which the source takes separately.
  - Users.UserService.GetUserAccounts: one reading `now` stands for the token service's two readings.
- **HTTP, JSON, LLMs and environment**
  - HTTP plumbing (RestClient, headers other than Authorization and content type, status handling) is reduced to `Exchange` values. Request bodies are maps, so JSON field order is not modelled.
  - `json.loads` and `json.dumps`, the LLM SDKs, the prompt texts, the tools' own `execute`, and an agent's `process` are function parameters.
  - `FetchTransactionsTool` and `SendNotificationTool` return canned data and are left out.
  - Logging and `print` are left out.
  - `os.getenv` is the `vars` map of an `Environment`. Whether an SDK import and client construction succeed is the `clientInit` predicate.
- **Types and arithmetic**
  - Kotlin's `Long` and `LocalDateTime` range limits are not modelled: `expiresIn` is an unbounded integer.
  - The OAuth2 principal is reduced to its four optional string attributes. A non-`OAuth2User` principal and non-string attributes are not modelled.
  - The `percentage` of `analyze_simple` is a float and is left out.
  - `analyze_spending` receives typed (category, amount) pairs, so the KeyError and non-integer cases of dict transactions are not modelled.
  - `generate_report` receives integers or absent keys, so non-integer values are not modelled.
- **Specific members**
  - Users.UserService.FindById: the iteration order of `ConcurrentHashMap.values` is unspecified, so the model promises some stored user with that id, not a particular one when several share it.
  - LlmProviders.KindNamed: `str.lower()` is modelled by ASCII lower-casing. This is exact for comparisons with "gemini", "anthropic" and "openai": no non-ASCII character lowers to one of their letters except U+0130, which lowers to two characters.
  - AgentServer.Analyze: the 500 answer is not modelled. `amt / total` (main.py:60) raises OverflowError when negative amounts make `total` small and the quotient exceeds the float range; the handler then answers 500 (main.py:118-120). The model always answers with the analysis.
  - AgentCore.FencedBlock: after a json fence, when the next fence is directly followed by another backtick (a run of four or more), the contract promises only a fence-free result, not which text it is. The splits then cut at an overlapping json fence instead, which the model does not describe.
  - AgentCore.ExtractPlanText: inherits the same gap for such replies; for every other reply it states the extracted text.
  - AgentCore.Think: the reply is the LLM's text or the text of what it raised. The exception classes are not distinguished.
  - AgentCore.BaseAIAgent.Process: the LLM round of `think` is the `reply` parameter, so the prompt built from the task and tool description is not modelled.
  - MultiAgent.MultiAgentSystem.Execute: a list task is extended in place by `+=`, so the returned workflow would also show the appended characters. The model returns the workflow as given.
  - MultiAgent.MultiAgentSystem.Execute: takes the workflow `orchestrate` produced (see `MultiAgent.Orchestrate`) instead of calling the orchestrator's LLM itself.
  - MultiAgent.WithContext: `json.dumps(..., indent=2)` of the shared context is the `dumps` parameter.
