# Verified model of the message-delivery service

This Dafny project models the part of the message-delivery service that decides what is sent, to whom, how
often, and what text it carries. `dafny verify dfyconfig.toml` checks it.

A worker process takes delivery requests from a broker queue. For each valid request it looks the event id up
in its own memory, works out a provider plan, renders a template, asks the providers of the plan in turn until
one entry of the plan is decisive, marks the id if a provider reported `sent`, publishes one result event, and
acknowledges the message; an invalid message is rejected and a failed publication puts the message back.
Several such processes share the queue, and connections and processes may fail at any step.

## How the modules fit together

- **One request.** `Handler` describes `Handle` twice: as a machine that performs one action on the outside
  world at a time (`After`, `Run`), and as a specification (`Decided`, `Delivered`: the first decisive plan
  entry decides). `Handler.DecidesExactly` proves that the two agree in both directions. The class
  `Orchestrator.Orchestrator` is the imperative code; its `Handle` is proved to perform a run of that machine
  that meets the specification. `Policy` derives what the provider policy of a request guarantees, and `Ledger`
  the books of one process: how many providers accepted an event, and which results were attempted for it.
- **All processes.** `Worker` is the consumer of one process; `Refinement` shows that whatever its loop does is a
  run of the transition system. `Protocol` interleaves any number of processes on
  one queue, one broker or handler action per step, with lost settlements, lost connections, crashes and new
  processes; the handler's steps are those of `Handler.After`. `ProtocolSafety` holds the statements about every
  reachable state. `ProtocolProgress` shows that undisturbed work is finite from every reachable state, that it
  can drain the system exactly when no message is stranded at a process that lost its settlement, and that
  crashes and one new process always restore that. `Topology` shows why a rejected message does not come back.
- **Providers.** `Config`, `Events`, `Lists` and `Providers`: the allow-list, the default chain, the provider
  plan, and the registry built from the configuration.
- **Texts.** `Templates`, `Substitution` (variables in templates) and `Rendering` (what is rendered, from the
  configuration to the text), `Paths` (template files), `Layout`, `Mail` and `MailReading` (e-mail, and reading it
  back), `TelegramText`, `TelegramReading` and `TelegramShown` (bot messages, and what they show), over `Strings` and
  `Html`.
- **Webhook.** `Webhook`: the `/start` commands, the connection event, and publish-then-greet. `WebhookReading` reads
  what is published and sent back in terms of the update.

The modules that read back, and the lemmas whose names end in `InFull` or `Exactly`, say what the functions of the
model mean in terms of the request, its metadata and the configuration, character by character where that matters.

A process identifier in `Protocol` stands for one life of a process: a restarted process is a new one with an
empty memory. What providers answer, whether a publication succeeds, and the order in which a loop visits a map
are left open, so every statement holds for all of them. A string is a sequence of Unicode code points; a nil
map is an empty one, which no use tells apart. JSON decoding, the parsing of addresses and URLs, SHA-256, the
HTML-to-text conversion, the file system, clocks and random identifiers appear as parameters or as arbitrary
values.

## Promises that hold only under a condition

Each item gives the exact condition and a failing input. The first two are sentences of the documentation; the
others are what a reader would expect of the code.

- "The next provider is tried after `undeliverable` if fallback is enabled" (README.md:96). Without a selected
  provider the code never looks at the flag. `Policy.FallbackFlagObeyedExactly`: no run goes on against the flag
  exactly when the flag is set or at most one provider can be asked. `Policy.AskedWithoutFallback` is a request
  that fails it. That `undeliverable` does lead on is `Policy.UndeliverableLeadsOn`.
- No provider is asked twice (README.md:990 promises it for requests with a selected provider, and
  `Policy.SelectionAvoidsRepeats` proves it for them). Without one the chain is copied with its repetitions.
  `Policy.NoProviderTwiceExactly` gives the condition, `Policy.AskedTwice` a failing request.
- Variable substitution does not depend on the iteration order of the map.
  `Substitution.OrderMattersExactly`, for all values: exactly when no value holds the placeholder of another variable
  or ends with a beginning of it, save for variables that stand for their own placeholder.
  `Substitution.PlaceholderInValueMatters` is a failing input; `Substitution.OrderIsIrrelevant` is the case of values
  in which no placeholder begins.
- An adapter is registered under its configured name. In the loop over an SMTP adapter's brands the loop variable
  hides that name, so a malformed brand registers a provider under the brand's name.
  `Providers.KeepsNameExactly` gives the condition. Loading the configuration establishes it for the e-mail channel
  only (internal/config/config.go:185-189); `Providers.ShadowedNameLosesAdapter` fails in another channel.
- The registry does not depend on the iteration order of the maps. `Providers.RegistryDeterminedExactly`: exactly when
  no name may be served in two ways, where `Providers.MayPutExactly` and `Providers.MayMissExactly` say in terms of the
  configuration what a channel may put under a name and when it may leave it alone. `Providers.TwoBadBrandsShow` is a
  configuration that fails it.
- A rejected message does not come back to the request queue. The code declares whatever kind of exchange the
  configuration names, topic by default (internal/config/config.go:266-267). `Topology.RejectionLoopsExactly` says for
  which kinds and request keys it comes back; `Topology.HashKeyLoops` and `Topology.FanoutLoops` show one of each.
- The queue drains when failures stop. `ProtocolProgress.DrainsExactly`: exactly when no message is stranded, that
  is, unacked at a connected process that has lost the message's settlement.
  `ProtocolProgress.LostRejectionStrands` reaches a state that work never drains.

## Model

| member | source | states |
|---|---|---|
| Handler.DecidesExactly | internal/delivery/orchestrator.go:48-114 | the step machine comes to publish a verdict after some actions if and only if the specification says so: duplicate, empty chain, template error, or the first decisive plan entry, with exactly one send per allowed and registered entry up to it, in plan order, all with one message, and the mark after a `sent` |
| Handler.ShapeHolds | internal/delivery/orchestrator.go:48-137 | every unfinished or finished run of the machine has the actions its position implies, and a finished one ends with one publication of its verdict |
| Handler.DecidedIsRun | internal/delivery/orchestrator.go:71-113 | every sequence of actions the specification allows can be performed |
| Handler.ExhaustedExactly | internal/delivery/orchestrator.go:113 | the verdict is that all providers are undeliverable exactly when no position is decisive, each having been skipped or `undeliverable`; the one corner is an empty selected name answering with that very error code |
| Handler.SendsAreRendered | internal/delivery/orchestrator.go:86-96 | in every run each message that is sent comes after a rendering of that run, has its subject, body and content type, and has everything else from the request |
| Handler.VerdictsInFull | internal/delivery/orchestrator.go:48-114 | the verdicts word by word: duplicate, empty chain, template error, all undeliverable, or a failure, refusal or success at the plan position it names |
| Handler.PublishedForRequest | internal/delivery/orchestrator.go:116-129 | a published result is typed as a result, names its request and recipient, and carries the verdict |
| Orchestrator.Orchestrator.Handle | internal/delivery/orchestrator.go:48-114 | the imperative handler performs a machine run meeting the specification, calling for each plan entry asked the provider registered under that name; it returns the published result or the publisher's failure, does nothing for a nil request, and keeps the books of its process |
| Orchestrator.Orchestrator.TryProviders | internal/delivery/orchestrator.go:71-113 | the loop calls the registered providers of the plan as the machine does and leaves it ready to publish the verdict it returns |
| Orchestrator.Orchestrator.FindProvider | internal/delivery/orchestrator.go:73-85 | skip, refuse or ask, as the allow-list, the registry and the selected provider say |
| Orchestrator.Orchestrator.Consult | internal/delivery/orchestrator.go:86-110 | the provider registered under the planned name is called, and its answer has the specified meaning, with the mark made before anything is published |
| Orchestrator.Orchestrator.Publish | internal/delivery/orchestrator.go:116-137 | one result that carries the request's identity and the verdict is handed to the publisher, if there is one, and returned |
| Orchestrator.MemoryIdempotencyStore.Mark | internal/delivery/idempotency.go:21-25 | exactly the given id is added |
| Orchestrator.CallEnds | internal/delivery/orchestrator.go:116-137 | a run followed by its publication is a complete call, and a settled process is settled again |
| Ledger.StepBalanced | internal/delivery/orchestrator.go:86-113 | each action keeps the books for every id: a provider has accepted the event exactly if its id is remembered or about to be marked; failures before the success, then only duplicates |
| Ledger.RunBalanced | internal/delivery/orchestrator.go:48-114 | the same for every run of a call, wherever it stops |
| Ledger.CallKeepsBooks | internal/delivery/orchestrator.go:97-102 | after a completed call each id is accepted at most once, exactly if it is remembered, and its results are failures, one success, then duplicates, whether or not publishing worked |
| Policy.NoProviderTwiceExactly | internal/delivery/event.go:125-148 | no provider is asked twice, whatever is answered, if and only if the askable plan entries, known beforehand, are distinct |
| Policy.SelectionAvoidsRepeats | internal/delivery/event.go:126-142 | with a selected provider the plan has no repetition, with fallback it lists the first occurrences of selected, chain and defaults without blanks, and no provider is asked twice |
| Policy.AllAskableCanBeAsked | internal/delivery/orchestrator.go:103-107 | if all say `undeliverable`, every askable entry is asked |
| Policy.DecidedNames | internal/delivery/orchestrator.go:71-111 | the providers asked in any call are a prefix of the askable ones |
| Policy.SelectedNeverSkipped | internal/delivery/orchestrator.go:73-84 | a selected provider that is disallowed or unregistered fails a fresh rendered request at attempt 1, named, with nothing sent, regardless of fallback |
| Policy.OneSendWithoutFallback | internal/delivery/event.go:127-129 | a selected provider without fallback: at most one send, to it |
| Policy.FallbackFlagObeyedExactly | internal/delivery/orchestrator.go:103-107 | for a fresh request, no run asks a provider after an `undeliverable` answer against the fallback flag if and only if the flag is set or at most one provider can be asked |
| Policy.UndeliverableLeadsOn | internal/delivery/orchestrator.go:97-110 | in every run an answer other than `undeliverable` is the last one, and after `undeliverable` the next askable provider is asked if there is one |
| Policy.FallbackReachesAll | internal/delivery/orchestrator.go:73-84 | with the flag set the askable providers are all allowed and registered plan entries before the first refused one |
| Policy.AskedTwice | internal/delivery/event.go:144-146 | a valid request with the chain `a`, `a` and a run that asks `a` twice |
| Policy.AskedWithoutFallback | internal/delivery/orchestrator.go:103-107 | a valid request with the chain `a`, `b`, fallback off, and a run that asks both |
| Policy.AskedExactly | internal/config/config.go:461-481 | a plan entry is asked exactly if it is registered and on the allow-list of the request's own channel |
| Policy.OnlyAllowedAreCalled | internal/delivery/orchestrator.go:73-86 | in every run each provider that is called is on that list and is the one registered under its name |
| Policy.PlanWithoutSelection | internal/delivery/event.go:144-147 | without a selected provider the plan is the chain as it stands, or the default of the channel |
| Policy.PlanWithSelection | internal/delivery/event.go:126-142 | with one the plan begins with it, holds nothing else without fallback, and with fallback exactly the nonempty names of chain and channel default |
| Worker.Worker.Handle | internal/worker/worker.go:35-50 | invalid messages are rejected and cause nothing; valid ones run the handler to its end, and are acknowledged after a successful publication naming their event, requeued after a failed one |
| Worker.Worker.Run | internal/worker/worker.go:21-33 | over any number of deliveries the log falls into one stretch per delivery; each is a complete call of the handler on the memory the one before left and justifies its own settlement; the books are kept |
| Worker.Confirmation | internal/worker/worker.go:42-49 | a call that returns a result published one for the event; a failing one tried to |
| Refinement.CallIsExec | internal/worker/worker.go:35-50 | a complete call of the worker is a run of the transition system: take, the handler's actions, settle or lose the settlement; memory, log and message end up as the call leaves them |
| Refinement.RunIsExec | internal/worker/worker.go:21-33 | so are any number of calls in a row, whichever settlements are lost |
| Refinement.WorkerRunIsExec | internal/worker/worker.go:21-33 | what the worker's loop reports is such a run: the process ends at rest, with the worker's memory, having performed exactly the worker's actions |
| Protocol.StepKeepsInv | internal/worker/worker.go:21-50 | the invariant of the system of processes (conservation, every process's books and position, acked means confirmed, dead-lettered means invalid) is kept by each of the nine kinds of step |
| Protocol.ReachableInv | internal/worker/worker.go:21-50 | it holds in every reachable state |
| ProtocolSafety.AtMostOncePerLife | internal/delivery/orchestrator.go:52-102 | within one life of a process at most one provider reports `sent` for an event id |
| ProtocolSafety.AcceptsBoundedByLives | README.md:86-105 | in the whole system at most as many accepts of an event id as process lives |
| ProtocolSafety.BoundIsAttained | README.md:86-105 | for every number of lives a run reaches that bound, so no smaller one holds |
| ProtocolSafety.ResultStream | internal/delivery/orchestrator.go:97-113 | the results a process attempts for an event id are failures, then at most one success, then only duplicates, in every interleaving |
| ProtocolSafety.NoMessageLost | internal/worker/worker.go:35-50 | every accepted message is in exactly one of queue, unacked, acked, dead-lettered, once |
| ProtocolSafety.AckedIsConfirmed | internal/worker/worker.go:36-49 | an acked message was valid and a result naming its event was published for it; a dead-lettered one was invalid |
| ProtocolSafety.InvalidIsNeverHandled | internal/delivery/event.go:62-93 | everything a process ever did was for a valid message and under its event id |
| ProtocolSafety.OnlyInvalidIsDeadLettered | internal/worker/worker.go:36-41 | a valid request on any channel is never dead-lettered, one on an unknown channel never acknowledged |
| ProtocolSafety.PrefetchKept | internal/broker/broker.go:104-107 | no process ever holds more messages than the prefetch count |
| ProtocolProgress.UndisturbedStrandsNothing | internal/worker/worker.go:35-50 | after any run with lost connections, lost settlements and crashes, nothing is stranded if no process that is still connected has itself lost a settlement |
| ProtocolProgress.WorkIsBounded | internal/worker/worker.go:21-50 | from every reachable state undisturbed work is finite: its length is bounded by the work at hand plus a fixed amount per failed publication |
| ProtocolProgress.PendingCanGoOn | internal/worker/worker.go:21-50 | while something is pending, nothing stranded and a process connected, a step is possible that is not a failed publication |
| ProtocolProgress.WorkDrains | internal/worker/worker.go:35-50 | from a reachable state with nothing stranded and a process connected, all undisturbed work is bounded and can go on until every valid message is acked and every invalid one dead-lettered |
| ProtocolProgress.DrainsExactly | internal/worker/worker.go:35-50 | in a reachable state with a connected process, undisturbed work can drain the system if and only if no message is stranded |
| ProtocolProgress.LostRejectionStrands | internal/worker/worker.go:36-41 | a reachable state with a connected process that no work drains: one invalid message whose rejection was lost |
| ProtocolProgress.RecoversFromAnywhere | internal/worker/worker.go:21-50 | from every reachable state, crashes and one new process followed by undisturbed work drain the system |
| ProtocolProgress.HolderLostFrees | internal/worker/worker.go:39-49 | the crash or lost connection of the process frees what is stranded there |
| ProtocolProgress.SomeBound | internal/delivery/event.go:125-148 | the plan lengths of finitely many messages have a common bound |
| Config.AllowedProvider | internal/config/config.go:461-481 | the search loop answers membership in the channel's allow-list; an unknown channel allows nothing |
| Events.ProviderPlan | internal/delivery/event.go:125-148 | the plan loop computes the specified plan: selected alone, the distinct nonempty names of selected, chain and defaults, or a copy of the chain or the defaults |
| Events.AppendNew | internal/delivery/event.go:130-142 | the loop with its seen set keeps the first occurrences of the nonempty names |
| Events.ValidExactly | internal/delivery/event.go:62-93 | exactly the requests with all their parts, of the right type and on one of the four channels, are handled |
| Events.FirstViolationReported | internal/delivery/event.go:73-93 | otherwise the first requirement that is not met is reported |
| Lists.DeduplicatedListsFirstOccurrences | internal/delivery/event.go:130-142 | removing repetitions keeps each element once, in the order of first occurrences |
| Lists.FirstOccurrencesUnique | internal/delivery/event.go:130-142 | that property determines the list |
| Providers.Registry.Register | internal/provider/provider.go:53-58 | the provider is stored under its own name and replaces an earlier one; nil changes nothing |
| Providers.Registry.Get | internal/provider/provider.go:60-63 | found exactly if registered |
| Providers.Registry.constructor | internal/provider/provider.go:45-51 | every initial provider is registered, nothing else, each under its own name |
| Providers.Registry.RegisterChannel | internal/provider/factory/factory.go:17-21 | the loop registers what is built from the adapters of a channel, in some order of the adapters and of their brands |
| Providers.BuildProvider | internal/provider/factory/factory.go:47-106 | the provider is one that some order of the brands gives; disabled, unknown and missing kinds give the named unavailable provider |
| Providers.KeepsNameExactly | internal/provider/factory/factory.go:63-72 | an adapter is registered under its own name in every order if and only if no brand of it is refused under another name |
| Providers.BuildIsDetermined | internal/provider/factory/factory.go:47-106 | under that condition the provider does not depend on the order of the brands |
| Providers.BuiltFromKind | internal/provider/factory/factory.go:47-106 | which kind of provider each kind of adapter gives, with which settings, and the error code of every unavailable one |
| Providers.NewRegistryFromConfig | internal/provider/factory/factory.go:15-38 | the registry is one that some iteration orders give; with every adapter under its own name it is the four channels laid over each other; always, each entry is built from some adapter and stored under its own name |
| Providers.FillKeepsNames | internal/provider/factory/factory.go:17-21 | if no adapter of a channel loses its name, its adapters are laid over what was registered, in every order |
| Providers.RegistryEntryExactly | internal/provider/factory/factory.go:15-38 | over all iteration orders, a name can end up with a provider, or without one, if and only if the last channel may put it there, or may leave the name alone and the earlier ones may have put it |
| Providers.MayPutExactly | internal/provider/factory/factory.go:47-72 | what a channel may put under a name: the adapter of that name if it has no malformed brand, or the refusal of a brand of that name |
| Providers.MayMissExactly | internal/provider/factory/factory.go:47-72 | an adapter may leave a name alone unless it is the well-formed adapter of that name, or that name is its only malformed brand |
| Providers.RegistryDeterminedExactly | internal/provider/factory/factory.go:15-38 | the registry is independent of all iteration orders if and only if no name may be served in two ways |
| Providers.TwoBadBrandsShow | internal/provider/factory/factory.go:65-68 | with a phone adapter that has two malformed brands the registry depends on the order |
| Providers.LayeredServes | internal/provider/factory/factory.go:15-38 | the names served are those of all adapters, and the last of email, phone, push, telegram that has a name serves it |
| Providers.ShadowedNameLosesAdapter | internal/provider/factory/factory.go:65-68 | a phone adapter of kind smtp with a malformed brand is always registered under the brand's name |
| Templates.ReplaceVariables | internal/template/render.go:156-166 | the loop gives the text of replacing the variables in some order of the map |
| Templates.Render | internal/template/render.go:27-71 | the result is an error, a verbatim custom message, or subject and body with the variables replaced, as the chosen template and content type say |
| Templates.IsHtmlExactly | internal/template/render.go:65 | a content type is HTML exactly if it begins with `text/html`, in whatever case |
| Templates.DefaultTypes | internal/template/render.go:73-90 | the default HTML type is HTML, with any parameters, and the default text type is not |
| Templates.ByteLengthInFull | internal/template/render.go:33 | the size of text in UTF-8, character by character |
| Rendering.BodyFromFirstPlace | internal/template/render.go:73-105 | the body is the text at the first of the five places where there is one, in the wanted or else the default language, with the type of that place |
| Rendering.RenderedFromPlace | internal/template/render.go:42-70 | the result has that body and the subject, with their variables replaced, escaped in the body exactly if its type is HTML |
| Rendering.DefaultHtmlKeepsMarkup | internal/template/render.go:65-90 | an item with an open type and an HTML body or file keeps the markup of that body for all values and orders |
| Rendering.DefaultTextIsVerbatim | internal/template/render.go:94-104 | an item with an open type and no HTML gets its variables as they are |
| Rendering.NotFoundExactly | internal/template/render.go:42-48 | there is no template exactly if neither the key nor, for a notification, the general item is configured |
| Rendering.MissingVariableReported | internal/template/render.go:49-53 | the first required variable that is missing is reported |
| Rendering.CustomIsVerbatim | internal/template/render.go:30-41 | the custom keys give the caller's texts as they are, or fail, exactly if these are missing, blank, too long, or the subject has a line break |
| Substitution.ReplaceIsFill | internal/template/render.go:163 | replacing one placeholder in text and slots in which it begins nowhere else fills exactly the slots of that key |
| Substitution.OrderMattersExactly | internal/template/render.go:156-166 | for all values, escaped or not: all iteration orders agree on every template of inert text and slots if and only if no value holds the placeholder of another variable or ends with a beginning of it, save for variables that stand for their own placeholder |
| Substitution.AllOrdersSubstitute | internal/template/render.go:156-166 | under that condition a text can result exactly if it is the simultaneous substitution |
| Substitution.OrderIsIrrelevant | internal/template/render.go:156-166 | for such templates and inert values a text can result if and only if it is the simultaneous substitution, so all iteration orders agree and unknown slots stay |
| Substitution.NoBraceRemains | internal/template/render.go:156-166 | with all slots bound and brace-free text and values, no brace remains, escaped or not |
| Substitution.EscapeKeepsInert | internal/template/render.go:160-162 | HTML escaping preserves the hypothesis on values |
| Substitution.PlaceholderInValueMatters | internal/template/render.go:159-164 | a value that is another variable's placeholder gives two different results in two orders |
| Substitution.StepKeepsMarkupExactly | internal/template/render.go:159-164 | one escaped replacement keeps the markup characters of every text if and only if the key holds none, whatever the value |
| Substitution.RenderKeepsMarkup | internal/template/render.go:65-70 | rendering an HTML template keeps the sequence of `<`, `>`, `"` and `'` of its body for all values and orders |
| Html.EscapeRoundTrip | internal/template/render.go:160-162 | escaped text reads back as the text |
| Html.EscapeHasNoMarkup | internal/template/render.go:160-162 | escaped text holds none of the four markup characters |
| Html.EscapeInFull | internal/template/render.go:160-162 | text is escaped character by character, to the standard entities |
| Paths.ResolveIsContainment | internal/template/render.go:120-144 | a path is accepted if and only if the base's parts lead the target's; the result is the base joined with the relative path, has only ordinary names and resolves to itself |
| Paths.ClimbTest | internal/template/render.go:136-142 | the textual test on the relative path sees exactly whether it leaves the base; `..foo` is not mistaken for `..` |
| Paths.CleanShow | internal/template/render.go:124-132 | a rooted path of ordinary names, printed and cleaned, is itself |
| Paths.NameAndClimbCancel | internal/template/render.go:128-135 | a name followed by `..` cancels anywhere in a path |
| Paths.DotIsNothing | internal/template/render.go:128-135 | empty parts and `.` have no effect anywhere in a path |
| Paths.RelativeTarget | internal/template/render.go:124-135 | a relative path leads from the base up by its climbs, not beyond the root, and down by its names |
| Paths.RelativeAcceptedExactly | internal/template/render.go:136-143 | climbs and then names are accepted exactly if these names begin with the names climbed out of |
| Paths.RootedAcceptedExactly | internal/template/render.go:128-143 | a rooted path stands for itself and is accepted exactly if it begins with the base |
| Paths.RelativeBase | internal/template/render.go:124-127 | a relative base directory lies under the working directory |
| Layout.ValidExactly | internal/provider/email/layout.go:12-14 | the count check accepts exactly the texts in which each slot stands at one position |
| Layout.CountOne | internal/config/config.go:172-174 | counting one match means occurring at exactly one position, because slots do not overlap |
| Layout.SlotsDoNotOverlap | internal/provider/email/layout.go:12-18 | no slot begins inside another one |
| Layout.SplitExists | internal/provider/email/layout.go:12-18 | a valid layout is three literal parts around the two slots, in one of the two orders |
| Layout.SplitUnique | internal/provider/email/layout.go:12-18 | in only one way |
| Layout.LayoutFills | internal/provider/email/layout.go:18 | the single-pass replacement puts body and footer between these parts for all bodies and footers, slots in them included |
| Mail.AddLink | internal/provider/email/message.go:43-64 | the unsubscribe link goes into the footer, the HTML or the text, or is refused |
| Mail.ComposeBody | internal/provider/email/message.go:34-76 | link, layout, content type and document as specified, first failure first |
| Mail.BuildMessage | internal/provider/email/message.go:17-78 | the finished mail has exactly the specified headers, content type and body, or the specified failure |
| Mail.Domain | internal/provider/email/message.go:28 | the part after the last `@` |
| Mail.PlainMailShape | internal/provider/email/message.go:65-75 | plain text through a layout fills the layout's parts; whether the document is added depends only on the layout and on the footer being empty |
| Mail.PlainMailIsLossless | internal/provider/email/message.go:38-76 | cutting off what is fixed and unescaping gives the original body for every body |
| Mail.UnsubscribeHeader | internal/provider/email/message.go:43-50 | only an address brings the headers; it is recoverable and holds no character that could end it |
| Mail.BodyWithoutLink | internal/provider/email/message.go:65-75 | without link and layout, text and complete HTML documents go out as rendered, and another HTML body with the document around it |
| Mail.HtmlMailIsDocument | internal/provider/email/message.go:73-75 | every HTML mail goes out with an `<html` tag |
| Mail.HasHtmlTagExactly | internal/provider/email/message.go:73 | the test for an `<html` tag, character by character and in whatever case |
| MailReading.LayoutInForce | internal/provider/email/message.go:39-42 | the configured layout applies, except that a finished custom HTML message has none unless it asks for it |
| MailReading.TypesInFull | internal/provider/email/message.go:34-37 | plain text if no type is given, HTML once a layout applies |
| MailReading.HtmlMailLaidOut | internal/provider/email/layout.go:15-18 | an HTML body goes into the layout as it is, and into a document exactly if the filled layout has no `<html` tag |
| MailReading.HtmlMailIsLossless | internal/provider/email/message.go:65-75 | the HTML body is recovered from the mail, whatever it contains |
| MailReading.PlainMailShows | internal/provider/email/layout.go:15-18 | a plain body in a layout is shown to the reader as it is |
| MailReading.LinkBehindBody | internal/provider/email/message.go:51-62 | without a layout the link stands behind the body; in HTML it shows the label and leads to the address of the metadata |
| MailReading.LinkInFooter | internal/provider/email/message.go:43-57 | in a layout the link is the footer and does the same; without a link the footer is empty |
| MailReading.HtmlLinkReads | internal/provider/email/message.go:59 | the HTML link shows its caption and leads to its address, whatever characters they have |
| MailReading.FooterLinkReads | internal/provider/email/message.go:57 | so does the footer link |
| MailReading.RefusedExactly | internal/provider/email/message.go:18-71 | the reason for which a message is refused, in the order of the checks, in terms of its metadata |
| MailReading.FixedTexts | internal/provider/email/message.go:73-75 | the document around an HTML mail and the other fixed texts, in full |
| TelegramText.TruncateRunes | internal/provider/telegrambot/telegrambot.go:288-296 | at most the limit; a cut text is a prefix with an ellipsis, a short one unchanged |
| TelegramText.FirstNonBlankOf | internal/provider/telegrambot/telegrambot.go:279-286 | the loop computes the first candidate that is not blank |
| TelegramText.FirstNonBlankExactly | internal/provider/telegrambot/telegrambot.go:279-286 | that is the trimmed first candidate behind only blank ones, and blank exactly if all are |
| TelegramText.MergeTelegramText | internal/config/config.go:361-372 | the two loops give the nonempty texts over the defaults, whatever the order |
| TelegramText.WithDefaultsTwice | internal/config/config.go:332-359 | filling in the defaults again changes nothing |
| TelegramText.TelegramMessage | internal/provider/telegrambot/telegrambot.go:133-163 | the text is the composed notice of the message, the button the specified one, none for greetings |
| TelegramText.WelcomeText | internal/provider/telegrambot/telegrambot.go:165-173 | the text is the composed greeting |
| TelegramText.TrimSlashes | internal/provider/telegrambot/telegrambot.go:271 | exactly the trailing slashes are cut off |
| TelegramReading.ComposeRoundTrip | internal/provider/telegrambot/telegrambot.go:148-162 | emoji, title, optional body and optional footer are recovered from the text, whatever they contain |
| TelegramReading.ComposeShows | internal/provider/telegrambot/telegrambot.go:148-162 | without tags and with entities read back, the text shows exactly the notice |
| TelegramReading.MessageIsFaithful | internal/provider/telegrambot/telegrambot.go:133-173 | for all inputs the message reads back as its notice, and shows at most 320 + 3000 + 7 characters and the footer |
| TelegramShown.NotificationShows | internal/provider/telegrambot/telegrambot.go:133-163 | a notification shows the first of its Telegram title, subject and fallback title, the text that the metadata or the body gives, the footer of its language and the sign of its icon |
| TelegramShown.GreetingShows | internal/provider/telegrambot/telegrambot.go:136-173 | a greeting shows its subject or the title of its kind, its text or the body of its kind, a wave and no footer |
| TelegramShown.ButtonExactly | internal/provider/telegrambot/telegrambot.go:157-161 | a notification has a button exactly for a rooted path under an https address, labelled in its language and leading there |
| TelegramShown.LocaleExactly | internal/provider/telegrambot/telegrambot.go:245-254 | Russian exactly for the tag `ru`, with or without a region, in whatever case; otherwise English |
| TelegramShown.LocalizedExactly | internal/provider/telegrambot/telegrambot.go:256-261 | the trimmed text of the language, or if it is missing or blank the English one |
| TelegramShown.DefaultsFieldByField | internal/config/config.go:332-359 | each text of the operator is completed by its own default |
| TelegramShown.SignsInFull | internal/provider/telegrambot/telegrambot.go:219-243 | the sign of each icon, and that of critical messages |
| TelegramShown.ComposeInFull | internal/provider/telegrambot/telegrambot.go:148-162 | the message as Telegram HTML, tag by tag |
| Webhook.StartReadExactly | internal/telegrambot/webhook.go:22-23 | the command with a token is recognised exactly, has one token, and is never a bare command |
| Webhook.BareReadExactly | internal/telegrambot/webhook.go:23 | the bare command is recognised exactly |
| Webhook.EventExactly | internal/telegrambot/webhook.go:132-154 | an event is made if and only if a private user's text carries a token; the final validation rejects none |
| Webhook.Hex | internal/telegrambot/webhook.go:156-159 | two lowercase hexadecimal digits per byte |
| WebhookReading.HexReadsBack | internal/telegrambot/webhook.go:156-159 | the printed digest reads back as the digest |
| WebhookReading.HashTellsDigest | internal/telegrambot/webhook.go:145-147 | two events have equal hashes exactly if the digests of their tokens agree |
| WebhookReading.CommandCharacters | internal/telegrambot/webhook.go:22-23 | the characters of names, tokens and blanks, in full |
| WebhookReading.StartInFull | internal/telegrambot/webhook.go:22 | the command with a token, in full |
| WebhookReading.PublishedExactly | internal/telegrambot/webhook.go:132-150 | a genuine request with a private update that carries a token is published once, as an event that tells the update, the chat, the user name and the digest of that token |
| WebhookReading.OtherwiseNothingPublished | internal/telegrambot/webhook.go:58-82 | no other request is published |
| WebhookReading.AnsweredExactly | internal/telegrambot/webhook.go:58-113 | the status of each answer, and the greeting to the right chat, in the user's language and of the right kind |
| WebhookReading.OtherwiseQuiet | internal/telegrambot/webhook.go:76-82 | any other genuine request is accepted and causes nothing |
| Webhook.EventIdIdentifiesUpdate | internal/telegrambot/webhook.go:145 | event ids are equal exactly if the update ids are |
| Webhook.WebhookHandler.ServeHTTP | internal/telegrambot/webhook.go:58-92 | the handler answers and acts as specified, whatever the time and the outcome of publishing |
| Webhook.EffectsExplained | internal/telegrambot/webhook.go:58-113 | over any sequence of requests each effect comes from its request, and each publication is that update's event |
| Webhook.EffectsOfRequest | internal/telegrambot/webhook.go:58-92 | in any sequence each request has exactly its own effects, in order |
| Webhook.BareStartGreetsExactly | internal/telegrambot/webhook.go:75-82 | a genuine bare command of a private user causes exactly one start greeting and no publication; no other request causes a start greeting |
| Webhook.CopiesAgree | internal/telegrambot/webhook.go:132-150 | all events published for copies of an update, retries included, agree except for the creation time |
| Webhook.WelcomeExactlyAfterPublish | internal/telegrambot/webhook.go:83-92 | a welcome directly follows each successful publication, to the same chat, and there is no other welcome |
| Topology.Setup | internal/broker/broker.go:35-97 | the declared objects, also after a failure part of the way: a new request queue never exists without its dead-letter queue and binding |
| Topology.RejectionLoopsExactly | internal/broker/broker.go:41-93 | a rejected message comes back to the request queue if and only if the exchange is fanout or headers, or is topic and the request key has a `#` and each word behind its last one is `*` or equals the next word, the last one `dead` |
| Topology.LiteralBinding | internal/broker/broker.go:87-95 | on a topic exchange a wildcard-free binding takes messages of its own key only |
| Topology.HashKeyLoops | internal/broker/broker.go:41-93 | on a topic exchange with the request key `message.#` a rejected message comes back |
| Topology.FanoutLoops | internal/broker/broker.go:44-93 | on a fanout exchange a rejected message comes back with the default key |
| Topology.RejectedGoesToDlq | internal/broker/broker.go:65-93 | with a wildcard-free key, rejected messages reach the dead-letter queue only and requests the request queue only, if and only if the exchange is topic or direct |
| Strings.TrimSpaceOf | internal/provider/telegrambot/telegrambot.go:279-286 | trimming recovers text from any spaces around it |
| Strings.BlankExactly | internal/template/render.go:33 | text is blank exactly if it is all spaces |
| Strings.SpacesInFull | internal/template/render.go:33 | the white space characters, one by one |
| Strings.LowerCaseInFull | internal/template/render.go:65 | the lower-case letters, one by one |

## Left out

- Connections: AMQP, HTTP and SMTP input and output, timeouts, TLS and JSON coding; a body is what decoding it
  gives, and outcomes are arbitrary.
- The bodies of the providers' `Send`: each maps an answer to one of three statuses. A reply is arbitrary, so the
  statements hold for every provider.
- The choice of a brand for an e-mail and the embedding of its logo; a mail is its headers, content type and body,
  not its serialised form.
- The conversion of HTML to plain text for Telegram, and the built-in default copy: parameters of the model.
- Shared state inside a process: the service consumes with one goroutine per process, so the mutex of the
  idempotency store and the sharing of slices between events are not modelled.
- The order of the broker's queue: any queued message may be delivered next. Every run of an ordered queue is
  among the runs considered.
- A rejected message is dead-lettered in one step; whether the broker routes it to the dead-letter queue is the
  subject of `Topology`.
- Environment overrides, field-by-field defaults, path resolution and the remaining validation of the
  configuration, VAPID keys, the command-line client and the health endpoint.
- The checks of the webhook handler's constructor, and the time limits of its requests.
- Exactly-once delivery across replicas and restarts, which the service does not promise;
  `ProtocolSafety.BoundIsAttained` shows that it cannot be had.
- Substitution.OrderMattersExactly: keys without braces, and templates of slots and of text in which every `{` is
  followed by another character than `{`. The values are arbitrary.
- Topology.RejectionLoopsExactly: the four exchange types of the standard; types that a broker plug-in adds are not
  modelled.
- Strings.ToLower: lower-cases ASCII letters only, which decides every comparison the service makes with the
  result.
- Paths.ResolveIsContainment: lexical Unix paths; symbolic links are not followed.
- Orchestrator.Orchestrator.Handle: the loop body and the effects stand in methods of their own, so that each
  step's state can be stated; the order of the effects is unchanged.
- Mail.BuildMessage: the body is composed before the unsubscribe headers are set; no failure leaves a mail behind
  in either order.
