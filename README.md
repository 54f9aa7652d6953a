# Meal planner: subscription reconciler, profile creation and meal-plan pipeline

A Dafny model of the server-side core of a Next.js meal-planning app. The app's users hold a
Profile row (keyed by their identity-provider user id) that records whether their paid
subscription is active, its tier and the payment processor's subscription id.

- **Stripe webhook** (`app/api/webhook/route.ts`). The route checks the event signature and
  dispatches on the event type. Three handlers then reconcile a Profile row with the event:
  - a completed checkout activates the row named by the session's `clerkUserId`;
  - a failed invoice payment switches off the row whose subscription id matches;
  - a deleted subscription clears that row.

  `ProfileStore` is a class holding the Profile table as a `map`, with methods for Prisma's
  `findUnique`, `findFirst`, `update` and `create`. The two lookups only read the table;
  `update` and `create` change it in place. Each handler is
  proved against a function giving the table after it (`AfterCheckout`,
  `AfterPaymentFailed`, `AfterSubscriptionDeleted`). Lemmas about those functions cover
  replays, misses, which rows match a subscription id, the "active implies a plan"
  invariant, and a whole checkout / payment-failure / cancellation lifecycle.
- **Profile creation** (`app/api/create-profile/route.ts`). This is a check-then-insert. The
  method is proved against `CreateOutcome`, which states when each of the 404, 400, 200, 201
  and 500 answers is given, and that only a 201 changes the table, by exactly one new row.
- **Meal-plan generation** (`app/api/generate-mealplan/route.ts`). This has four parts:
  - the bounded `retry` loop, as a method with loop invariants;
  - the prompt template with its defaults;
  - the removal of Markdown code fences (on top of a model of `String.prototype.trim`);
  - the mapping from the model's answer, `JSON.parse` and errors to the HTTP response.

The model follows the code, including where its behaviour is surprising:

- Activating a user id that has no Profile row does nothing. Prisma's `update` throws "record
  not found" and the handler catches it. So a checkout for a user who never created a profile
  does not leave an active row behind (`Webhook.AfterCheckout`).
- An active row is meant to have a tier and a subscription id (`Profiles.ActiveHasPlan`). The
  checkout handler does not keep that invariant (`WebhookProperties.CheckoutCanBreakActiveHasPlan`):
  - its second guard re-tests the user id instead of the subscription id, so a session
    without a subscription still activates the row, with a null id;
  - a missing or empty `planType` writes a null tier.

  The other handlers and profile creation do keep it (`WebhookProperties.HandlersKeepActiveHasPlan`,
  `CreateProfile.CreateKeepsActiveHasPlan`).
- Every handler catches its own store errors, so a verified event is always answered with
  200 `{}`. The route's second 400 branch is never taken in this model.
- `findFirst` returns some matching row when several rows share a subscription id, so the
  replay lemmas for payment failure and deletion assume at most one row carries the id.
- A row whose user id is the empty string counts as "no profile found", because the code
  tests `profile?.userId` for truthiness.
- The opening-fence pattern `^```(?:json)?` is greedy. Text in a plain ``` fence that
  itself starts with `json` therefore loses that word as well (`MealPlan.PlainFenceStripped`).

Foreign services are parameters of the model:

- the signature check is a `constructEvent` function;
- the signed-in user is an optional record;
- the language-model call is a function from the prompt and the attempt number to an outcome;
- `JSON.parse` is a function from text to an optional JSON value;
- each Prisma call is given a flag saying whether it throws.

Time is not modelled: `retry` returns how many milliseconds it would have slept.

## Model

| member | source | states |
|---|---|---|
| `Profiles.ApplyDataIdempotent` | app/api/webhook/route.ts:67-74 | Writing the same data twice gives the same row as writing it once. |
| `Profiles.ProfileStore.FindUnique` | app/api/create-profile/route.ts:28-30 | It fails exactly when the store fails. Otherwise it returns the row under the key, or nothing when there is none. |
| `Profiles.ProfileStore.FindFirstBySubscription` | app/api/webhook/route.ts:96-99 | It fails exactly when the store fails. Otherwise it returns some row carrying the subscription id, or nothing exactly when no row carries it. |
| `Profiles.ProfileStore.Update` | app/api/webhook/route.ts:67-74 | It succeeds exactly when the store works and the key exists, and then rewrites only that row. A missing key gives "record not found" and leaves the table unchanged. |
| `Profiles.ProfileStore.Create` | app/api/create-profile/route.ts:39-47 | It succeeds exactly when the store works and the key is new, and then adds just that row. An existing key is a unique violation and leaves the table unchanged. |
| `Webhook.MetadataValue` | app/api/webhook/route.ts:54 | `metadata?.[key]` is present exactly when the metadata exists and holds the key. |
| `Webhook.AfterCheckout` | app/api/webhook/route.ts:51-78 | With a truthy user id that has a row, and a working store, only that row changes: it becomes active with the session's subscription id and plan, and keeps its email. Otherwise the table is unchanged. The key set never changes. |
| `Webhook.AfterPaymentFailed` | app/api/webhook/route.ts:87-120 | Only the row `findFirst` returned is switched off, and only when the invoice has a subscription id, the lookup works, the key is non-empty and the write works. No row's email, tier or subscription id changes. |
| `Webhook.AfterSubscriptionDeleted` | app/api/webhook/route.ts:122-155 | The row `findFirst` returned becomes inactive, with no tier and no subscription id, and keeps its email. Every other row is kept. Any miss or store error leaves the table unchanged. |
| `Webhook.LookupKey` | app/api/webhook/route.ts:88-97 | A subscription id is looked up only for payment-failure and deletion events. |
| `Webhook.Dispatch` | app/api/webhook/route.ts:23-48 | An event type other than the three handled ones leaves the table unchanged. No event adds or removes rows. |
| `Webhook.HandleCheckoutSessionCompleted` | app/api/webhook/route.ts:51-78 | The table afterwards is `AfterCheckout` of the table before, including the duplicated user-id guard and the caught update error. |
| `Webhook.HandleInvoicePaymentFailed` | app/api/webhook/route.ts:87-120 | The row it found is a `findFirst` answer for the invoice's subscription id, and the table afterwards is `AfterPaymentFailed` of the table before. |
| `Webhook.HandleCustomerSubscriptionDeleted` | app/api/webhook/route.ts:122-155 | The row it found is a `findFirst` answer for the subscription's id, and the table afterwards is `AfterSubscriptionDeleted` of the table before. |
| `Webhook.Post` | app/api/webhook/route.ts:6-49 | A signature that fails verification gives 400 with the error's message and leaves the table unchanged. This includes a missing signature when the verifier rejects empty ones. A verified event gives 200 `{}` and the table becomes `Dispatch` of the event. |
| `WebhookProperties.CheckoutReplay` | app/api/webhook/route.ts:67-74 | Delivering a checkout event again leaves the table as the first delivery left it when that one took effect, and otherwise acts as a first delivery. |
| `WebhookProperties.PaymentFailureKeepsMatches` | app/api/webhook/route.ts:110-116 | After a payment failure, every subscription id is matched by the same rows, so a later deletion still finds the row. |
| `WebhookProperties.PaymentFailureReplay` | app/api/webhook/route.ts:96-116 | Replaying a payment failure that took effect changes nothing more, when at most one row carries the id. |
| `WebhookProperties.DeletionClearsMatch` | app/api/webhook/route.ts:143-151 | A deletion that took effect removes exactly the updated row from the rows matching the id. |
| `WebhookProperties.DeletionReplayIsNoop` | app/api/webhook/route.ts:129-151 | Replaying a deletion that took effect is a no-op when at most one row carried the id. |
| `WebhookProperties.UnmatchedEventIsNoop` | app/api/webhook/route.ts:100-103 | A payment-failure or deletion event whose subscription id no row carries leaves the table unchanged. |
| `WebhookProperties.HandlersKeepActiveHasPlan` | app/api/webhook/route.ts:87-155 | Payment failure and deletion keep "every active row has a tier and a subscription id". A checkout keeps it when its session carries a plan and a subscription. |
| `WebhookProperties.CheckoutCanBreakActiveHasPlan` | app/api/webhook/route.ts:60-72 | A checkout session with a user id but no plan and no subscription turns a table satisfying the invariant into one that violates it. |
| `WebhookProperties.SubscriptionLifecycle` | app/api/webhook/route.ts:51-155 | Checkout, payment failure and cancellation take a fresh row through active and past-due, and the whole table ends as it began. |
| `CreateProfile.CreateOutcome` | app/api/create-profile/route.ts:10-55 | For each answer, the exact condition under which it is given: 404 with no user; 400 when the first address is empty; 200 "already exists" when the row is there; 201 when the row is created; 500 when the address list is empty or the store fails. Only 201 changes the table, by adding one new row with the user's email. |
| `CreateProfile.Post` | app/api/create-profile/route.ts:10-55 | The response and the table afterwards are `CreateOutcome` of the table before. |
| `CreateProfile.CreateProfileIdempotent` | app/api/create-profile/route.ts:28-47 | After a successful creation, a second request for the same user leaves the table unchanged. It answers "already exists", or 500 when its lookup fails. |
| `CreateProfile.CreateKeepsActiveHasPlan` | app/api/create-profile/route.ts:39-47 | Profile creation keeps "every active row has a tier and a subscription id". |
| `JsText.NatToString` | app/api/generate-mealplan/route.ts:34 | A non-negative integer renders as a non-empty string of decimal digits with no leading zero, as `String(n)` renders a safe integer. |
| `JsText.NatToStringRoundTrip` | app/api/generate-mealplan/route.ts:34 | Reading back the digits a number renders as gives the number. |
| `JsText.TrimStartSpec` | app/api/generate-mealplan/route.ts:78 | Leading-space trimming keeps a suffix of the input and removes only white space. |
| `JsText.TrimEndSpec` | app/api/generate-mealplan/route.ts:78 | Trailing-space trimming keeps a prefix of the input and removes only white space. |
| `JsText.TrimSpec` | app/api/generate-mealplan/route.ts:78 | `trim` leaves a slice of the input with no white space at either end, and everything it cuts is white space. |
| `JsText.TrimFixesTrimmed` | app/api/generate-mealplan/route.ts:81 | Text with no white space at its ends is left as it is. |
| `JsText.TrimIdempotent` | app/api/generate-mealplan/route.ts:78-81 | Trimming twice is the same as trimming once. |
| `MealPlan.Retry` | app/api/generate-mealplan/route.ts:17-27 | It makes at most `retries + 1` calls and returns the outcome of the last one. Every earlier call was a 429. It stops at once on a success or on a non-429 error, and an error returned with calls left is not a 429. There are `calls - 1` delays. A negative retry count throws "Retry function failed unexpectedly." without calling. |
| `MealPlan.RateLimitedTwiceThenSucceeds` | app/api/generate-mealplan/route.ts:17-27 | Two 429s followed by a success give that success after exactly three calls and two delays. |
| `MealPlan.OtherErrorIsNotRetried` | app/api/generate-mealplan/route.ts:22 | An error other than 429 is thrown after one call and no delay. |
| `MealPlan.PromptDefaults` | app/api/generate-mealplan/route.ts:36-38 | A missing or empty `allergies` or `cuisine` fills the prompt exactly as "none" or "no preference" would. Any `snacks` values of the same truthiness fill it alike. |
| `MealPlan.MealsMentionSnacks` | app/api/generate-mealplan/route.ts:38-44 | The meals section contains "Snacks included: yes." exactly when snacks are wanted, and lists "- Snacks" exactly when snacks are wanted. Without snacks it says "Snacks included: no.". |
| `MealPlan.MealsLength` | app/api/generate-mealplan/route.ts:38-44 | The meals section with snacks is 9 characters longer than without. |
| `MealPlan.PromptSnacks` | app/api/generate-mealplan/route.ts:33-61 | The whole prompt contains "Snacks included: yes." and "- Snacks" when snacks are wanted, and "Snacks included: no." otherwise. |
| `MealPlan.PromptSnacksLength` | app/api/generate-mealplan/route.ts:38-44 | A prompt without snacks is 9 characters shorter than the same prompt with snacks. |
| `MealPlan.StripLeadingFence` | app/api/generate-mealplan/route.ts:81 | What it removes is a prefix of the text, and one of "```json", "```" or nothing: the longest match of `^```(?:json)?`. It removes a bare "```" only when "json" does not follow, and nothing only when the text does not open with "```". The rest is kept. |
| `MealPlan.StripTrailingFence` | app/api/generate-mealplan/route.ts:81 | What it removes is a suffix of the text, and either "```" or nothing. It removes nothing only when the text does not end with "```". The rest is kept. |
| `MealPlan.StripFences` | app/api/generate-mealplan/route.ts:78-81 | The text handed to the parser has no white space at either end. |
| `MealPlan.UnfencedTextIsOnlyTrimmed` | app/api/generate-mealplan/route.ts:78-81 | Text with no fence at either end, after trimming, is only trimmed. |
| `MealPlan.JsonFenceOpens` | app/api/generate-mealplan/route.ts:81 | An opening "```json" is removed together with its tag. |
| `MealPlan.PlainFenceOpens` | app/api/generate-mealplan/route.ts:81 | A plain opening "```" not followed by "json" is removed alone. |
| `MealPlan.JsonFenceStripped` | app/api/generate-mealplan/route.ts:78-81 | A body wrapped in a "```json" fence comes out as the trimmed body. |
| `MealPlan.PlainFenceStripped` | app/api/generate-mealplan/route.ts:78-81 | A body wrapped in a plain fence comes out as the trimmed body, except that a leading "json" in the body is removed as well. |
| `MealPlan.ErrorResponse` | app/api/generate-mealplan/route.ts:104-119 | An error with status 429 gives a 429 response. Every other error gives a 500 that is not the parse-failure answer. |
| `MealPlan.CompletionResponse` | app/api/generate-mealplan/route.ts:78-119 | A 200 with the parsed plan comes back exactly when the first choice parses to an object or array. "Failed to parse meal plan" comes back exactly when a completion with a choice does not. A 429 comes back exactly when the call ended in a 429. Every other outcome is 500. |
| `MealPlan.Respond` | app/api/generate-mealplan/route.ts:78-102 | The response to the outcome of the call is `CompletionResponse` of that outcome. |
| `MealPlan.Generate` | app/api/generate-mealplan/route.ts:64-119 | For a given prompt, `Generated` holds: 1 to 3 calls, 2000 ms waited before each call after the first, and every call before the last a 429. The last call is a 429 only when it was the third. The response is `CompletionResponse` of the last outcome, so a 429 answer comes only after three rate-limited calls. |
| `MealPlan.Post` | app/api/generate-mealplan/route.ts:29-120 | An unreadable request body gives 500 without calling the model. Otherwise the prompt sent is `Prompt` of the request, and `Generated` holds for it, with every clause listed for `MealPlan.Generate`. |

## Left out

- Stripe's HMAC signature check and its timestamp tolerance are not modelled. They are a cryptographic library call, so `constructEvent` is a parameter. The model states only what the route does with its answer.
- The identity provider (`currentUser`) and the Prisma query engine are external services. The signed-in user is an optional record, and the database is the `ProfileStore` class with a "this call throws" flag per operation.
- The language-model HTTP call, `setTimeout` and `JSON.parse` are foreign calls. They are a scripted per-attempt outcome function, a counter of milliseconds slept and a parse function. The request's model name, temperature and token limit are not modelled.
- Concurrent webhook deliveries (last write wins) are not modelled. Each handler runs as one atomic step.
- Request values are primitives only: undefined, null, booleans, safe integers (at most 2^53 - 1 in size) and strings. Fractional numbers, NaN and objects (which render as "[object Object]") are not modelled. Neither are integers beyond 2^53 - 1, which a JavaScript number rounds, and which from 10^21 on `String(n)` renders with an exponent ("1e+21").
- Numbers in a parsed meal plan are integers. The route passes the parsed value through unchanged, so their range does not matter to the model.
- Strings are sequences of Unicode code points. UTF-16 surrogate pairs are not modelled.
- Only the fields of a Stripe event object the handlers read are modelled: `metadata`, `subscription` and `id`. Expanded objects (a subscription given as an object instead of an id) are not.
- Logging (`console.log`, `console.error`) is not modelled.
- `app/api/profile/subscription-status/route.ts` is not part of this model. It is a single read of one column.
- The React pages are not part of this model. They are user interface.
- `next.config.ts` is not part of this model. It is build configuration.
- `Profiles.ActiveHasPlan`: this invariant is proved only for the operations that keep it. The checkout handler breaks it, as described above.
- `MealPlan.PromptDefaults`: states the defaults as equal prompt field values. The prompt is `FillTemplate` of those values, so the prompt texts are equal as well; that text-level equality is not restated.
- `MealPlan.PromptSnacks`: states only that the snacks answer and item occur in the prompt. The converse holds for the list of meals (`MealPlan.MealsMentionSnacks`), but not for the whole prompt. The diet type, calories, allergies and cuisine are copied into the prompt as the user wrote them, so allergies of "- Snacks" put that item into a prompt without snacks.
