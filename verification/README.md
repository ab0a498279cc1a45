# ChatToSales: a verified model of its protocols and parsers

ChatToSales lets traders sell over WhatsApp. This project models the parts of its backend
whose correctness depends on interleaving, failure, time or careful text handling, and
proves what those parts promise. `dafny verify dfyconfig.toml` checks everything.

| file | models |
|---|---|
| `SendOnce.dfy`, `Delivery.dfy` | notifications: check, insert under the unique index, dispatch, commit or roll back, any number of calls interleaved |
| `DebtReminders.dfy` | the debt reminder job: send in one transaction, count in a second, die anywhere |
| `Broadcasts.dfy` | the paced broadcast sender with its 7-day cap and opt-outs, other actors in between |
| `Keyset.dfy`, `Conversations.dfy`, `Messages.dfy` | cursor pagination of conversations and messages while the tables change |
| `Onboarding.dfy` | the onboarding conversation: store the prompt, send it, clear it |
| `ImageInquiries.dfy`, `OtpLogin.dfy` | Redis structures with expiry, time passing between commands |
| `TenantMigration.dfy` | re-homing a trader's orders, conversations, messages and scheduled messages |
| `Text.dfy`, `CatalogueCommands.dfy`, `Slugs.dfy`, `Carts.dfy`, `ProductPicker.dfy` | ADD/PRICE commands, slugs and carts, list pickers |
| `StatusKit.dfy`, `EventChannels.dfy`, `ImageMatch.dfy` | product rotation, channel patterns, nearest image |

Protocols are state machines: a total `Next` (a step that is not possible leaves the state as
it is) and `Exec` over any list of actions. Where the program changes state or loops, a class, or a
method with the program's own loop, does so step by step and is proved equal to the corresponding
actions or function. The list queries are expressions, and `Keyset.dfy`, `Conversations.dfy` and `Messages.dfy` model them as functions. The
theorems range over every run.

## What is assumed

- The database gives read-committed isolation; an insert that meets an uncommitted row with
  the same unique key waits for it.
- The jobs built on top of notifications (debts, broadcasts, onboarding replies) treat one call as atomic, and
  once WhatsApp has taken the message the call commits. `SendOnce.LossFreeIsSequential` shows that any
  interleaving without a lost commit leaves rows and messages as whole calls one after the other do,
  `SendOnce.RaisesExactly` in which case a caller sees something else, and `SendOnce.AtMostOnceExactly` what depends on no
  commit being lost. The jobs never send one event from two calls at a time.
- Clocks do not go backwards. Each listener handles one event at a time. One debt reminder job runs at a time, and
  a trader runs one broadcast at a time. Code requests and verifications for one phone number, which are HTTP calls, are
  handled one at a time.
- Text is ASCII.
- Outcomes the program cannot know (whether WhatsApp takes a message, whether a transaction
  commits, how much time passes, what others do meanwhile) are parameters of the steps.

## Findings

Properties that do not hold of the code as written, each with the exact condition under which they do:

- A transaction that dies after WhatsApp took the message lets the event be delivered again
  (`SendOnce.LostCommitDeliversTwice`); at most once holds exactly when no such commit was lost (`SendOnce.AtMostOnceExactly`).
- An onboarding message that is handled twice can skip a prompt, because the second reply finds the event id
  taken and counts as delivered. It happens where a move is announced (`Onboarding.RepeatedMessageSkipsPrompt`) and
  where a stored prompt is sent again (`Onboarding.RepeatedRepromptSkipsPrompt`), and messages are read informed
  throughout a run exactly when no message reaches such a place with its reply id taken
  (`Onboarding.ClearedUnseenExactly`, `Onboarding.InformedExactly`). The program gives every saved message its own id and
  publishes it once, so a message is handled twice only when a second process subscribes.
- A call that loses the race for its row raises although the message is out (`SendOnce.RaceLoserRaises`); otherwise
  a caller sees exactly what a whole call gives (`SendOnce.RaisesExactly`).
- An opt-out does not stop a broadcast message that is past its check. Another message still goes out exactly when
  one is past its check and not yet sent (`Broadcasts.OptOutSilencesExactly`), and another send is still recorded exactly
  when one is between its check and its record (`Broadcasts.OptOutRace`, `Broadcasts.OptOutStopsExactly`).
- The 7-day cap consults recorded sends, so two messages can go out at once (`Broadcasts.LostRecordRepeats`). Messages
  delivered to one customer stay seven days apart, whatever follows, exactly when no turn ends without its record on the
  list for a customer who has not opted out and has an unlisted message less than seven days old
  (`Broadcasts.DeliveriesSafeExactly`).
- A debt settled after the job has taken it up is still reminded (`DebtReminders.SettledYetReminded`), exactly when
  it is still on the job's list and its message has not gone out (`DebtReminders.SettledStopsExactly`).
- A message with the timestamp of the cursor's row and a smaller id is never returned
  (`Keyset.EqualTimestampExample`); a walk reads on without a gap exactly when each new row sorts behind the cursor
  (`Keyset.ReadsOnExactly`).
- The OTP limiter lets six codes through in ten minutes when its counter expires between INCR and EXPIRE
  (`OtpLogin.SixInAWindow`); the bound is safe exactly when no request loses its count like that
  (`OtpLogin.WindowSafeExactly`).
- An image inquiry is forgotten if the index expires between SADD and EXPIRE (`ImageInquiries.SlipForgetsInquiry`,
  `ImageInquiries.PutKeepsExactly`).
- After a migration, orders agree with their conversations exactly when the trader shares no conversation with
  another trader (`TenantMigration.SharedConversationParts`, `TenantMigration.OrdersAgreeExactly`).
- A product whose name looks like a navigation id, is too long for the row id or ends in white space cannot be picked
  from a list (`ProductPicker.NavNameIsNotPicked`, `ProductPicker.ProductTapExactly`).
- The comment in the event bus says that tenant ids without dots prevent over-matching. They do not: a one-segment
  name also hears longer names that end with it (`EventChannels.ShortNameHearsMore`). Equal numbers of segments do, for
  every tenant (`EventChannels.HeardOnlyByName`). No publisher of the program sends a one-segment name.
- The grouping-comma rewrite does not revisit a digit: a comma between digits stays exactly when the text has digit,
  comma, digit, comma, digit in a row (`CatalogueCommands.OverlapKeepsComma`, `CatalogueCommands.CommaStaysExactly`).
- A bare comma before a product name that begins with a digit is taken for a grouping comma
  (`CatalogueCommands.DigitNameSwallowed`); commands read back exactly when there is none (`CatalogueCommands.AddRoundTrip`).

## Model

| member | source | states |
|---|---|---|
| `SendOnce.DeliveriesAccounted` | app/modules/notifications/service.py:104-146 | In every interleaving of any number of calls, deliveries of an event = its committed row + its call about to commit + its lost commits, and row and call in flight exclude each other |
| `SendOnce.AtMostOnce` | app/modules/notifications/models.py:33-47 | Without a lost commit no event id is delivered twice, in any interleaving |
| `SendOnce.AtMostOnceExactly` | app/modules/notifications/service.py:104-146 | From any reachable state, "at most once whatever follows without further loss" holds if and only if no commit of the event was lost |
| `SendOnce.LostCommitDeliversTwice` | app/modules/notifications/service.py:120-146 | For every event there is a run that delivers it twice through a lost commit |
| `SendOnce.FailureLeavesRetryOpen` | app/modules/notifications/service.py:170-214 | A failed dispatch leaves the table as it was, the event unheld, and the next successful call delivers and commits it |
| `SendOnce.CommittedIsFinal` | app/modules/notifications/service.py:104-109 | A committed row stays SENT in every continuation and nothing more is delivered for it |
| `SendOnce.UninterruptedCall` | app/modules/notifications/service.py:104-146 | The steps of one call run back to back have exactly the effect of the atomic `Send` that the jobs use |
| `SendOnce.LossFreeIsSequential` | app/modules/notifications/service.py:104-146 | Any interleaving that loses no commit leaves rows and messages exactly as whole calls do one after the other, in the order in which they take effect; what the callers see is the next row |
| `SendOnce.RaisesExactly` | app/modules/notifications/service.py:111-146 | The caller of a call that takes effect gets an exception if and only if the whole call would raise or its insert met a row committed since its lookup, and in the latter case rows and messages are as before |
| `SendOnce.RaceLoserRaises` | app/modules/notifications/service.py:104-118 | A run in which the message is delivered and another caller for it gets an exception |
| `SendOnce.NotificationService.SendMessage` | app/modules/notifications/service.py:104-146 | The method with its insert, marks and rollback changes rows and deliveries as `Send` says, and raises exactly when a new event is refused |
| `DebtReminders.RemindersSound` | app/infra/scheduler.py:195-301 | Over every run with deaths between the two transactions: a debt's reminders are numbered 0, 1, 2, ... once each, their count is the counter or one more and at most the maximum, and job start times are an interval apart |
| `DebtReminders.BeginTakesExactly` | app/infra/scheduler.py:195-214 | An idle scheduler starts a job with exactly the active debts that have reminders left and whose interval, in days of 86400 seconds since the last reminder or the recording, has passed |
| `DebtReminders.JobDoesExactly` | app/infra/scheduler.py:195-301 | From every reachable idle state a job that completes reminds of exactly those debts, moves each counter by one, stamps it with the job start, sends no second message where one had gone out before a death, and leaves every other debt as it was |
| `DebtReminders.SpacedApart` | app/infra/scheduler.py:205-214 | Any two reminders i and j of a debt are (j - i) intervals apart |
| `DebtReminders.DueIsReminded` | app/infra/scheduler.py:281-301 | In every reachable state a debt whose turn comes and whose message is taken gets its next reminder, once, and its counter and time move |
| `DebtReminders.CrashIsRepaired` | app/infra/scheduler.py:281-301 | After a death between the transactions the next job that reaches the debt sends nothing and brings the counter in line |
| `DebtReminders.SettledStopsExactly` | app/infra/scheduler.py:195-219 | After a debt leaves the active state a reminder can still go out if and only if the running job has it on its list and has not sent to it |
| `DebtReminders.SettledYetReminded` | app/infra/scheduler.py:221-301 | A run in which a settled debt is still reminded |
| `DebtReminders.Scheduler.CollectDue` | app/infra/scheduler.py:195-219 | The loop keeps the order of the listed debts and takes those that are due; `BeginTakesExactly` says which those are |
| `DebtReminders.Scheduler.TakeTurn` | app/infra/scheduler.py:259-301 | One debt's turn, ending early, failing or dying, is the corresponding steps of the state machine |
| `DebtReminders.Scheduler.TakeTurns` | app/infra/scheduler.py:221-309 | The loop over the due debts is the run of all their turns |
| `DebtReminders.Scheduler.SendDebtReminders` | app/infra/scheduler.py:171-309 | A whole job is a run of the state machine, so the theorems cover it |
| `Broadcasts.CapHolds` | app/modules/marketing/broadcast.py:195-262 | Over every run, recorded sends to one listed customer are seven days apart, and a send recorded after an opt-out had passed its check before it |
| `Broadcasts.ListTellsLastSend` | app/modules/marketing/broadcast.py:245-262 | In every run the list has for every customer the time of the last send recorded while they were on it, and no time exactly when there is none |
| `Broadcasts.SkippedExactly` | app/modules/marketing/broadcast.py:195-231 | In every run a recipient is skipped if and only if the log has a send to them as a listed customer less than 604800 seconds before the job started; otherwise ruled out if opted out, and otherwise written to |
| `Broadcasts.JobStartsNow` | app/modules/marketing/broadcast.py:178-194 | A job works with the clock and exactly the pending recipients of its start until it ends |
| `Broadcasts.OptOutStopsExactly` | app/modules/marketing/broadcast.py:224-262 | After an opt-out some continuation still records a send if and only if the message was between its check and its record |
| `Broadcasts.OptOutSilencesExactly` | app/modules/marketing/broadcast.py:224-243 | After an opt-out some continuation still delivers a message to the customer if and only if one was past its check, not yet sent, and new to its broadcast |
| `Broadcasts.OptOutRace` | app/modules/marketing/broadcast.py:195-262 | A run that records a send after the customer opted out |
| `Broadcasts.DeliveriesSpaced` | app/modules/marketing/broadcast.py:195-269 | Over every run in which no turn ends unrecorded for a customer who has not opted out and has an unlisted message less than seven days old, messages delivered to one customer are seven days apart |
| `Broadcasts.DeliveriesSafeExactly` | app/modules/marketing/broadcast.py:195-269 | After a step, messages delivered to one customer stay seven days apart in every continuation without a further such turn, if and only if the step was not one |
| `Broadcasts.DeliveriesSafeFromStart` | app/modules/marketing/broadcast.py:195-269 | Every run from the start without such a turn is in a state of that kind |
| `Broadcasts.LostRecordRepeats` | app/modules/marketing/broadcast.py:234-269 | A run that delivers two messages to a listed customer at once |
| `Broadcasts.OptOutStays` | app/modules/marketing/customer_list.py:69-86 | Nothing in any run takes an opt-out back or moves its moment |
| `Broadcasts.TurnOutcome` | app/modules/marketing/broadcast.py:195-264 | What becomes of a recipient: skipped when written to less than seven days before, else opted out when so marked, else sent if taken and recorded; a message goes out to exactly those not ruled out, once per broadcast; and exactly a recorded send is counted and entered in list and log, with the time of sending |
| `Broadcasts.FinishedRunAddsUp` | app/modules/marketing/broadcast.py:173-289 | Every finished run: reported sent + skipped + opted out + still pending = recipients loaded, and the report is the number marked as sent |
| `Broadcasts.ExecKeepsTally` | app/modules/marketing/broadcast.py:195-262 | In every run the counter equals the loaded recipients marked as sent, those not reached are pending, and everyone marked as sent has a delivered message, each delivered once |
| `Broadcasts.SettledIsFinal` | app/modules/marketing/broadcast.py:178-183 | A recipient that is sent, skipped or opted out keeps that status in every continuation, later runs of the broadcast included |
| `Broadcasts.PendingOfMeaning` | app/modules/marketing/broadcast.py:178-183 | The recipients loaded are exactly the pending ones, each once |
| `Broadcasts.BroadcastSender.UpsertCustomer` | app/modules/marketing/customer_list.py:23-67 | Adding a customer never touches an existing entry's broadcast time or opt-out |
| `Broadcasts.BroadcastSender.OptOutCustomer` | app/modules/marketing/customer_list.py:69-86 | Marks a listed customer once and says whether it did |
| `Broadcasts.BroadcastSender.Check` | app/modules/marketing/broadcast.py:195-231 | Cap first, then opt-out, else on to sending |
| `Broadcasts.BroadcastSender.Deliver` | app/modules/marketing/broadcast.py:234-243 | Sends once per broadcast and phone; a refusal leaves the recipient pending |
| `Broadcasts.BroadcastSender.RecordSent` | app/modules/marketing/broadcast.py:245-264 | The step that marks the recipient, enters the time of sending in the list and counts, or does none of it; what it enters is fixed by `ListTellsLastSend` and `TurnOutcome` |
| `Broadcasts.BroadcastSender.TakeTurn` | app/modules/marketing/broadcast.py:195-275 | One recipient's turn with others acting in between is a run of the state machine |
| `Broadcasts.BroadcastSender.SendBroadcastPaced` | app/modules/marketing/broadcast.py:155-289 | The whole loop is a run of the state machine over exactly the pending recipients, and stores the number it counted |
| `Keyset.PageMeaning` | app/modules/conversation/service.py:559-575 | A page is the first `limit` rows behind the cursor, and a next cursor, the last row returned, exists exactly when more rows are left |
| `Keyset.FetchIsPage` | app/modules/conversation/repository.py:468-499 | The limit + 1 query and its cut give such a page |
| `Keyset.WalkFollows` | app/modules/conversation/service.py:545-575 | A client that passes each cursor on gets a chain of such pages |
| `Keyset.WalkInOrder` | app/modules/conversation/repository.py:326-348 | Whatever happens to the table, a walk returns rows in strict list order |
| `Keyset.WalkCovers` | app/modules/conversation/repository.py:326-348 | A finished walk has returned every row that was there at each fetch |
| `Keyset.SortedAfter` | app/modules/conversation/repository.py:481-498 | Asking from a cursor is cutting the sorted list behind that row |
| `Keyset.PrefixKeptExactly` | app/modules/conversation/repository.py:481-498 | The first m rows stay the first m if and only if every new row sorts behind the m-th |
| `Keyset.WalkIsPrefix` | app/modules/conversation/service.py:559-575 | A walk over a list that grows behind its cursor reads on without gap or repeat from any place |
| `Keyset.ReadsOnExactly` | app/modules/conversation/service.py:559-575 | Over a list to which rows are only added, a walk from any place reads on without gap or repeat if and only if each new row sorts behind the cursor of the next fetch |
| `Keyset.EqualTimestampSkips` | app/modules/conversation/repository.py:481-498 | A new row with the timestamp of the cursor and a smaller id leaves a gap, whatever the keys |
| `Keyset.EqualTimestampExample` | app/modules/conversation/repository.py:481-498 | Such a table exists, with timestamps that never go back |
| `Keyset.MessagesWalk` | app/modules/conversation/service.py:545-575 | Reading a growing conversation yields exactly a prefix of it sorted by (created_at, id), for every limit, and all of it when the walk ends |
| `Conversations.ConversationsWalk` | app/modules/conversation/service.py:488-514 | While rows are inserted and bumped: descending (updated_at, id), only the tenant's own rows as they stood at a fetch, no conversation twice, and every one of the tenant not bumped is returned |
| `Conversations.ListedIsGenuine` | app/modules/conversation/repository.py:326-348 | Every row returned stood in the table at a fetch with that time, and belongs to the tenant that asks, or to anyone for the superadmin |
| `Conversations.ConversationsWalkEnds` | app/modules/conversation/service.py:498-514 | The walk ends within ceil(n / limit) pages for the n rows present at the first fetch |
| `Messages.ConversationRead` | app/modules/conversation/repository.py:468-499 | Reading a conversation while messages arrive returns its own first messages in order of (created_at, id) as they stand at the last fetch, and all of them when the walk ends |
| `Onboarding.InterpretsOnlyInformed` | app/modules/onboarding/service.py:289-310 | In every run in which no message reaches a clearing place with its reply id taken, whatever replies fail, a handler reads a message only after the prompt that led into the current state was shown; in Q&A, the question about that very item |
| `Onboarding.ReachableWellFormed` | app/modules/onboarding/service.py:351-453 | In every run, repeated ids included: a name past the name step, a category past the category step, and in Q&A an index within the items and the prices of exactly the earlier answers that parsed |
| `Onboarding.PriceHasItsQuestion` | app/modules/onboarding/service.py:857-916 | In every run each recorded price was read from a message taken for the item whose question had been asked last, and that question was showing unless a prompt was cleared unseen |
| `Onboarding.PricesMeaning` | app/modules/onboarding/service.py:857-916 | A price in the map is the last parsed answer of its item; an item is missing exactly when no answer of it parsed |
| `Onboarding.AnswerIsTaken` | app/modules/onboarding/service.py:857-916 | With replies going through, an answer before the last item records its price and shows the next question |
| `Onboarding.AnswersAreCollected` | app/modules/onboarding/service.py:833-916 | Any number of answers before the last item ends at the right item with exactly their prices and its question showing |
| `Onboarding.FirstMessage` | app/modules/onboarding/service.py:244-277 | A known trader is left alone, and only a trigger starts the conversation, at the name step with the welcome showing |
| `Onboarding.StoredPromptComesFirst` | app/modules/onboarding/service.py:294-310 | A stored prompt is shown and cleared, and the message is not read |
| `Onboarding.WelcomedBack` | app/modules/onboarding/service.py:279-287 | Someone who was away is welcomed back and then treated as anyone else |
| `Onboarding.NameAnswer` | app/modules/onboarding/service.py:351-383 | The name stored is the trimmed text, at least two characters, cut at sixty, and the category menu for it is showing |
| `Onboarding.CategoryAnswer` | app/modules/onboarding/service.py:208-216 | "1" to "6" store provisions, fabric, food, electronics, cosmetics and building with the catalogue menu showing, "7" asks for a description, anything else is refused |
| `Onboarding.DescriptionAnswer` | app/modules/onboarding/service.py:394-408 | The description stored is the trimmed text cut at two hundred |
| `Onboarding.PathAnswer` | app/modules/onboarding/service.py:455-529 | "1", "2" and "3" lead to the photo, the voice note and the first question, "back" to the menu, "4" leaves the step, anything else is refused |
| `Onboarding.MediaAnswer` | app/modules/onboarding/service.py:532-669 | At a media step the paths stay open, another kind of message is refused, and an empty reading leads back to the catalogue menu |
| `Onboarding.QaEnds` | app/modules/onboarding/service.py:869-899 | Five words in any case end the questions early; the last answer leaves the step |
| `Onboarding.QaCheckpoint` | app/modules/onboarding/service.py:901-916 | What is said after an answer: progress after every fifth, then the next question |
| `Onboarding.FailedMoveIsStored` | app/modules/onboarding/service.py:1117-1145 | When WhatsApp takes no reply, the step a message leads to is stored with its prompt, and a message that leads nowhere changes nothing |
| `Onboarding.ClearedUnseenExactly` | app/modules/onboarding/service.py:289-329 | From every good state one message leaves a good state if and only if it does not reach either clearing place, the move or the reprompt, with the id of the reply sent there already taken |
| `Onboarding.InformedExactly` | app/modules/onboarding/service.py:233-329 | At every point of a run, whichever message comes next, only informed messages have been read, if and only if no message of the run clears a prompt unseen |
| `Onboarding.FreshIdsSuffice` | app/modules/onboarding/service.py:233-329 | Runs in which no message id repeats clear no prompt unseen |
| `Onboarding.RepeatedRepromptSkipsPrompt` | app/modules/onboarding/service.py:294-310 | A run in which a repeated message clears the category menu although it was never shown |
| `Onboarding.RepeatedMessageSkipsPrompt` | app/modules/onboarding/service.py:289-310 | A message handled twice leads to a message read against a prompt never shown |
| `Onboarding.OnboardingService.Tell` | app/modules/onboarding/service.py:1082-1115 | A reply is shown once per event id and reports whether it counts as sent |
| `Onboarding.OnboardingService.MoveTo` | app/modules/onboarding/service.py:1117-1145 | Stores step and prompt, sends, and clears the prompt only if sent |
| `Onboarding.OnboardingService.HandleName` | app/modules/onboarding/service.py:351-383 | The name step of the state machine |
| `Onboarding.OnboardingService.HandleCategory` | app/modules/onboarding/service.py:385-453 | The category step, with the free description of "other"; what each answer stores is fixed by `CategoryAnswer` and `DescriptionAnswer` |
| `Onboarding.OnboardingService.HandleCatalogueChoice` | app/modules/onboarding/service.py:455-529 | The catalogue step, with its early exit |
| `Onboarding.OnboardingService.HandleMedia` | app/modules/onboarding/service.py:532-669 | The photo and voice steps: wrong kind, nothing found, or an exit that leaves the step |
| `Onboarding.OnboardingService.HandleQa` | app/modules/onboarding/service.py:857-916 | One answer: price map and index move together, then the next question or the end |
| `Onboarding.OnboardingService.HandleStep` | app/modules/onboarding/service.py:312-329 | Dispatch on the step |
| `Onboarding.OnboardingService.HandleMessage` | app/modules/onboarding/service.py:233-329 | The whole inbound message, pending prompt first |
| `ImageInquiries.RunKeepsIndexed` | app/modules/orders/session.py:237-281 | Over every run, every unexpired inquiry is in its trader's index and the index outlives it, unless an index expired inside a store |
| `ImageInquiries.PutKeepsExactly` | app/modules/orders/session.py:237-256 | Storing keeps that if and only if the index does not expire between SADD and EXPIRE while the inquiry is live |
| `ImageInquiries.SlippedIsForgotten` | app/modules/orders/session.py:237-256 | Whenever the index slips away during a store, the stored inquiry is live while the lookup finds none and the count is zero |
| `ImageInquiries.SlipForgetsInquiry` | app/modules/orders/session.py:237-256 | Two stores 86399 seconds apart do that |
| `ImageInquiries.GetExact` | app/modules/orders/session.py:212-234 | A lookup finds none exactly when none is live and then leaves the index empty; otherwise it finds the live customer with the greatest phone number and drops exactly stale members, all of them above that one |
| `ImageInquiries.CountCoversLive` | app/modules/orders/session.py:284-287 | The count is at least the number of live inquiries |
| `ImageInquiries.IndexHoldsWaiting` | app/modules/orders/session.py:237-287 | In every run whoever is on an index was stored and not cleared since, so the count is at most the number of those |
| `ImageInquiries.CountExactWithinDay` | app/modules/orders/session.py:284-287 | In every run shorter than a day the count is exactly the number of live inquiries |
| `ImageInquiries.ClearUnlists` | app/modules/orders/session.py:259-281 | Clearing takes the named customer off the index, or the greatest indexed phone number, and the count drops by one if they were listed |
| `ImageInquiries.PutLists` | app/modules/orders/session.py:237-256 | Storing puts the customer on the index beside those on it, unless the index is gone before EXPIRE |
| `ImageInquiries.InquirySession.SetPending` | app/modules/orders/session.py:237-256 | SETEX, SADD and EXPIRE with time in between |
| `ImageInquiries.InquirySession.GetPending` | app/modules/orders/session.py:212-234 | The sorted scan with its clean-up loop computes the lookup |
| `ImageInquiries.InquirySession.ClearPending` | app/modules/orders/session.py:259-281 | Clearing one customer or the greatest indexed one, key and index member; `ClearUnlists` and `ClearEnds` say what that leaves |
| `ImageInquiries.InquirySession.CountPending` | app/modules/orders/session.py:284-287 | The cardinality of the live index |
| `OtpLogin.AtMostFivePerWindow` | app/modules/auth/service.py:281-296 | No half-open 600-second window of any run that loses no count holds more than five issued codes, although each request renews the expiry |
| `OtpLogin.AskKeepsExactly` | app/modules/auth/service.py:281-296 | A request keeps the counter in step with the codes of the last window if and only if the counter does not expire between INCR and EXPIRE while its code is still in the window |
| `OtpLogin.WindowSafeExactly` | app/modules/auth/service.py:281-296 | After a request the bound of five holds for every loss-free continuation if and only if the request did not lose its count |
| `OtpLogin.SixInAWindow` | app/modules/auth/service.py:281-296 | A run with six codes in ten minutes |
| `OtpLogin.CodesAreSingleUse` | app/modules/auth/service.py:320-328 | Each login used one issued code, none twice, in order and within its lifetime, so logins never outnumber codes |
| `OtpLogin.OtpService.RequestOtp` | app/modules/auth/service.py:272-303 | The Redis commands in order with time in between: INCR keeps the expiry of a live counter and EXPIRE does nothing to one that is gone |
| `OtpLogin.OtpService.VerifyOtp` | app/modules/auth/service.py:305-328 | Read, compare, delete |
| `TenantMigration.MigrateSound` | app/modules/orders/repository.py:252-343 | Messages and scheduled messages still agree with their conversations, only the trader's rows change and only in tenant, and none of the trader's orders stay behind |
| `TenantMigration.MigrateTwice` | app/modules/orders/repository.py:252-343 | Repeating a migration changes nothing |
| `TenantMigration.RunSound` | app/modules/auth/service.py:365-378 | Over any sequence of logins: messages and scheduled messages agree with their conversations, no row of the four tables is made or lost, what has left the shared tenant or concerns nobody of the run is unchanged, and no order of a migrated trader stays behind |
| `TenantMigration.RunSettles` | app/modules/orders/repository.py:252-343 | Where every row of the four tables is after any sequence of logins: orders with the first login of their trader, conversations and their messages with the first login of a trader who has an order in them |
| `TenantMigration.OrdersAgreeExactly` | app/modules/orders/repository.py:285-310 | Orders still agree with their conversations if and only if the trader shares none with another trader's orders |
| `TenantMigration.SharedConversationParts` | app/modules/orders/repository.py:285-310 | A database in which a migration parts an order from its conversation |
| `TenantMigration.CommuteExactly` | app/modules/orders/repository.py:252-343 | Two traders' migrations commute if and only if they share no conversation |
| `TenantMigration.FirstComeFirstServed` | app/modules/orders/repository.py:285-310 | A shared conversation goes to the trader who migrates first |
| `TenantMigration.OrderRepository.MigrateTraderOrders` | app/modules/orders/repository.py:252-343 | The four bulk updates are one migration, and the number of orders moved is returned |
| `CatalogueCommands.AddRoundTrip` | app/modules/orders/nlp.py:288-324 | Any list of names with thousands-grouped prices, written as an ADD command in any case and with any of the separators, is parsed back, also for names ending in digits, if and only if no bare comma precedes a name that begins with a digit |
| `CatalogueCommands.AddAnyGap` | app/modules/orders/nlp.py:302-305 | The same with any white space after the keyword, or none |
| `CatalogueCommands.Layer1Add` | app/modules/orders/nlp.py:340-369 | Such a message is recognised as an ADD with those products under exactly that condition |
| `CatalogueCommands.Layer1Price` | app/modules/orders/nlp.py:352-369 | The same for PRICE, which is read by way of ADD |
| `CatalogueCommands.OrderCommandReads` | app/modules/orders/nlp.py:341-350 | A verb in any case, white space and 6 to 16 hex digits are read as that command on that order, the reference in lower case |
| `CatalogueCommands.Layer1Means` | app/modules/orders/nlp.py:340-369 | An order command is read only from such a text, and products to add or price only after that word and white space |
| `CatalogueCommands.ParseIsNormal` | app/modules/orders/nlp.py:288-324 | Whatever was typed, the parsed products are good ones, and writing them out and parsing again changes nothing under exactly that condition |
| `CatalogueCommands.DropShow` | app/modules/orders/nlp.py:307-309 | The rewrite removes every grouping comma, and of the separators exactly the bare commas before a digit |
| `CatalogueCommands.CommaStaysExactly` | app/modules/orders/nlp.py:307-309 | After the rewrite a comma stands between two digits if and only if the text had digit, comma, digit, comma, digit in a row |
| `CatalogueCommands.OverlapKeepsComma` | app/modules/orders/nlp.py:307-309 | "1,2,3" keeps its second comma, whatever follows |
| `CatalogueCommands.DigitNameSwallowed` | app/modules/orders/nlp.py:307-312 | "A 3,7up 2" does not read back |
| `CatalogueCommands.ReadPart` | app/modules/orders/nlp.py:314-323 | A product is found in a part if and only if the trimmed part is its name, then a price: the shortest name that leaves only a price, a number without commas, greater than zero |
| `CatalogueCommands.PartMeaning` | app/modules/orders/nlp.py:314-323 | The same of the function the theorems are about, and at most one product per part |
| `CatalogueCommands.PartsReadApart` | app/modules/orders/nlp.py:313-324 | A part that is no product costs only itself |
| `CatalogueCommands.ReadParts` | app/modules/orders/nlp.py:311-324 | The loop over the parts gathers their products in order |
| `CatalogueCommands.ParseAddItems` | app/modules/orders/nlp.py:288-324 | The whole parser, against the function the theorems are about |
| `Slugs.GenerateUniqueSlug` | app/modules/onboarding/service.py:1151-1167 | Ends within one probe more than there are slugs, with the base if it is free and otherwise the base with the least number from 2 that is free: fresh, non-empty, over a-z, 0-9 and hyphen, no hyphen at either end |
| `Slugs.CandidatesDiffer` | app/modules/onboarding/service.py:1162-1166 | Numbered candidates are all different |
| `Slugs.TriedCount` | app/modules/onboarding/service.py:1162-1166 | So n taken candidates need n taken slugs, which bounds the probes |
| `Slugs.BaseOfWords` | app/modules/onboarding/service.py:1158-1160 | Words in any case and with any punctuation, with any white space between any two of them, become what the filter leaves of each in lower case, joined by single hyphens |
| `Slugs.BaseOfNothing` | app/modules/onboarding/service.py:1160-1160 | A name of which nothing but hyphens is left gives "trader" |
| `Slugs.BaseOfSlug` | app/modules/onboarding/service.py:1158-1160 | A slug is its own base |
| `Carts.CartRoundTrip` | app/modules/orders/handlers.py:186-217 | Any cart of a reference and lines "name xN" is parsed back: same slug, same items in order, also for names that end like a quantity |
| `Carts.CartReads` | app/modules/orders/handlers.py:73-76 | The order word and the reference in any case, any spacing before the quantity and either x are read as that cart |
| `Carts.LineMeaning` | app/modules/orders/handlers.py:209-216 | An item is found in a line exactly when the line is the shortest name that leaves only a positive quantity |
| `Carts.LinesReadApart` | app/modules/orders/handlers.py:209-216 | A line that is no item costs only itself |
| `Carts.SlugEnds` | app/modules/orders/handlers.py:73-73 | The reference ends where its characters end |
| `Carts.ParsedIsGood` | app/modules/orders/handlers.py:199-217 | Whatever was sent, parsed items have trimmed one-line names and positive quantities, and the slug is lower case |
| `Carts.CartsExactly` | app/modules/orders/handlers.py:186-217 | The carts that messages can express are exactly those |
| `Carts.SlugInCart` | app/modules/orders/handlers.py:73-76 | Every slug of the generator's form is understood in a cart message |
| `Carts.CollectLines` | app/modules/orders/handlers.py:199-199 | The trimmed, non-blank lines |
| `Carts.ReadItems` | app/modules/orders/handlers.py:209-216 | The loop over the item lines |
| `Carts.ParseCartMessage` | app/modules/orders/handlers.py:186-217 | The whole parser, nothing on a missing prefix |
| `ProductPicker.PaginateProductRows` | app/modules/orders/whatsapp.py:33-92 | Shows the asked page, clamped, with its navigation rows, never more than ten rows |
| `ProductPicker.PagesPartition` | app/modules/orders/whatsapp.py:50-75 | The product rows of all pages together are the whole list in order |
| `ProductPicker.PageHolds` | app/modules/orders/whatsapp.py:50-75 | Ten products or fewer are one page; more come in pages of eight |
| `ProductPicker.OutOfRange` | app/modules/orders/whatsapp.py:63-63 | A page number out of range means the nearest page |
| `ProductPicker.RowShows` | app/modules/orders/whatsapp.py:16-17 | A row shows the first 24 characters of the name and a price that reads back, thousands grouped |
| `Text.CommaPlaces` | app/modules/orders/whatsapp.py:16-17 | Counted from the end of a grouped number every fourth character is a comma, and no other |
| `ProductPicker.NavTap` | app/modules/orders/service.py:4307-4325 | Tapping a navigation row asks for the page it names |
| `ProductPicker.FollowMeaning` | app/modules/orders/whatsapp.py:78-90 | NEXT leads one page on and is missing on the last page only; PREV the other way |
| `ProductPicker.PrevUndoesNext` | app/modules/orders/whatsapp.py:78-90 | PREV undoes NEXT, and NEXT undoes PREV |
| `ProductPicker.BrowseVisitsAll` | app/modules/orders/whatsapp.py:78-90 | NEXT from page 1 visits each page once and stops at the last |
| `ProductPicker.ProductTapExactly` | app/modules/orders/service.py:4306-4330 | Tapping a product row picks that product if and only if its name fits the row id, does not end in white space and does not look like a navigation id |
| `ProductPicker.NavNameIsNotPicked` | app/modules/orders/service.py:4306-4325 | A product called "NEXT_1" turns the page |
| `StatusKit.Select` | app/infra/scheduler.py:380-386 | The loop picks the products at the day's positions |
| `StatusKit.PositionAt` | app/infra/scheduler.py:381-386 | The i-th product of a day is the one at (3 * day + i) modulo n |
| `StatusKit.NoRepeatInADay` | app/infra/scheduler.py:381-386 | min(3, n) positions, all different |
| `StatusKit.KitHasNoRepeat` | app/infra/scheduler.py:380-386 | So no product is in a kit twice |
| `StatusKit.CoversEveryProduct` | app/infra/scheduler.py:382-385 | Every product within any ceil(n / 3) consecutive days |
| `StatusKit.EvenShare` | app/infra/scheduler.py:382-385 | Over any number of consecutive days each product is shown its even share, rounded down or up |
| `StatusKit.ThreeTimesEach` | app/infra/scheduler.py:382-385 | Exactly three times in any n consecutive days |
| `EventChannels.HeardExactly` | app/infra/event_bus.py:48-68 | Which channels the wildcard pattern of an event matches, for any tenant and any carried event |
| `EventChannels.HeardFromDotFree` | app/infra/event_bus.py:58-68 | From tenants without dots: the event itself and longer names ending with it after a dot, nothing else |
| `EventChannels.HeardOnlyByName` | app/infra/event_bus.py:245-263 | Between names with equally many segments, two for instance, exactly the event itself, for every tenant |
| `EventChannels.ShortNameHearsMore` | app/infra/event_bus.py:58-68 | A one-segment name hears a two-segment event |
| `EventChannels.TenantHeardExactly` | app/infra/event_bus.py:53-55 | A tenant's own pattern hears exactly that tenant's channels, for ids without dots |
| `EventChannels.DocumentedNames` | app/infra/event_bus.py:45-68 | Channels and patterns are named as documented |
| `ImageMatch.ResolvePrice` | app/modules/orders/product_descriptions.py:156-165 | The first catalogue entry of that name in any case, else the stored price, else none |
| `ImageMatch.FindBestMatch` | app/modules/orders/product_descriptions.py:112-181 | The first, newest first, of the least distant confirmed images within 12 that have a price; none exactly when no image qualifies |
| `ImageMatch.FirstIsNearest` | app/modules/orders/product_descriptions.py:100-114 | Over all stored images: a least distant candidate, and no newer candidate is as near |

## Left out

- Order-linked debt reminders: they have several writers and an inner commit; only standalone debts are modelled.
- Order reminders: one fixed event id per order, so they are the single-reminder case of the debt protocol and would only add easy members.
- Customer segments and segment counts: they would only add easy members.
- Onboarding completion and media confirmation: `_complete` reads an undefined name and `_send_extracted_product_list` imports a function that does not exist, so both are exits that leave the step as it is; the confirmation steps are proved unreachable.
- `_parse_price`: the price reader of the Q&A is a parameter of the onboarding model.
- Scheduled messages, smart follow-ups and the hour at which the Status Kit is sent.
- `send_image_url` and `send_video_url`, which swallow errors and follow another contract.
- Which image inquiry is the most recent: the code orders by phone number, and so does the model.
- The status column of a broadcast, the progress callback and the pause between sends; other columns of customer entries.
- The bytes of cursors, the perceptual hash itself (a parameter), tokens and encryption.
- Redis patterns with character classes or escapes; text beyond ASCII; Status Kit days before its epoch.
- Message wording, HTTP, rendering, media processing and calls to outside services.
- A process that dies while an onboarding reply is under way: after the prompt was shown and before it is cleared, the prompt would be stored still and shown once more.
- A process that dies between INCR and EXPIRE, or between SADD and EXPIRE, and leaves a key without expiry.
- Order states, payments and dashboard queries.
