# KisanMitra backend core, modelled in Dafny

KisanMitra is a FastAPI backend for farmers. This project models the parts of it that decide something and proves properties about them:

- **Registration and login schemas.** Field lengths, the digits-only phone number, password confirmation, and the defaults for role, country code and language.
- **Reply repair for the generative-language calls.** The crop and yield advice calls extract the JSON text from the reply envelope. They parse it and fill every missing required key with `"N/A"`. Any failure gives a fixed error object.
- **The account lifecycle.** Registration runs its duplicate checks in a fixed order and makes the first account the administrator. Login runs its failure checks in a fixed order, then records the login time and answers with a token.
- **Access tokens.** This covers the claims encoded, the 30-minute default lifetime, and how verification and decoding classify their failures.
- **Conversation memory.** An append-only message log is read back per user and session in timestamp order. Next to it is an upserted per-user summary.
- **One chat turn.**
  - Summary lookup, with a cache in front of the durable summary.
  - A per-session history cache, replayed from the log the first time a session is seen.
  - A prompt that carries the summary, or a sentinel when there is none.
  - The two log rows of a turn, human then ai.
  - The summary refresh and the streaming variant.
- **The chat endpoints.** History formatting, the distinct-session listing and the turn endpoint.
- **Per-user notifications and feedback.** Each endpoint is restricted to the caller's own rows, and feedback ratings must be between 1 and 5.
- **The crop recommendation endpoint.** Feature order, label-to-crop lookup, and the payload forwarded to the advice call.

Code that changes things step by step is written as imperative Dafny:

- the user, notification and feedback tables;
- the chat database;
- the module-level chat caches;
- the fill loop, the replay loop and the stream loop, which keep loops with invariants;
- the history formatting loop.

Pure decision logic is written as functions, with lemmas relating them.

Several inputs are function parameters, so the model says nothing about how they behave:

- the password hash and its checker (bcrypt);
- `json.dumps` and `json.loads`;
- the HTTP exchange with the advice service;
- the chat model, its streamed chunks and the summariser;
- the two scalers and the classifier.

The signing library is a reference model: a token carries its claims and a signature naming the claims and the key. Time is an integer number of seconds, passed in as `now`.

Files: `common.dfy` (shared values and string helpers), `sequences.dfy` (filter, stable sort, concatenation, distinct), and one file per modelled source file: `schema.dfy`, `gemini.dfy`, `jwt.dfy`, `auth_routes.dfy`, `chat_database.dfy`, `chat_index.dfy`, `chat_routes.dfy`, `notifications.dfy`, `feedbacks.dfy`, `crop_prediction.dfy`.

Where the documented intent of the system and its code differ, the model follows the code:

- **Login lookup.** The login query is meant to match phone and email. It matches on the phone number only. The query builder's `==` returns an expression object whose truth value is false when its two sides are different objects, so Python's `and` yields that first comparison and the email comparison never reaches the query (`AuthRoutes.LoginOutcome`, `AuthRoutes.LoginIgnoresEmail`).
- **Issued token.** The login handler assigns the token to `jwt_token` on the user row, but the users table has no such column, so the commit stores only the login time. The token goes into the reply only (`AuthRoutes.UserTable.Login`).
- **`exp` of another type.** jose coerces `exp` with `int()` and turns only a ValueError into its claims error. A float, a boolean or a numeric string is coerced and then compared with the clock. A null, a list or an object raises a TypeError that is no `JWTError`, so `decode_token` does not catch it and the request ends in a 500, while `verify_token` answers a 401 whose detail is the TypeError's text (`Jwt.IntOf`, `Jwt.Decode`, `Jwt.DecodeToken`, `Jwt.VerifyToken`).
- **Requested role.** Registration does not copy the requested role, country code or language into the new row. The new row gets ADMIN for the first user and otherwise the column defaults (`AuthRoutes.NewUser`, `AuthRoutes.RequestedRoleIgnored`).
- **Summary refresh failure.** A failure of the summary refresh is not best effort. It propagates out of the turn after both messages were stored (`ChatIndex.TurnOutcome.SummaryFailed`).
- **Unknown crop label.** An unknown crop label does not produce the "Sorry" reply. The name `crop` is then unbound, so building the payload raises (`CropPrediction.UnknownLabelFails`).
- **Missing `sub` claim.** A token without `sub` is refused with a 401 whose detail is `"401: Could not validate credentials"` and which has no Bearer challenge. The inner exception is caught again by the generic handler (`Jwt.VerifyToken`).

`load_chat_history`, `get_user_summary` and the two listing endpoints are Dafny functions that read the state. Two reads with no write in between therefore give the same answer by construction.

## Model

| member | source | states |
|---|---|---|
| Common.Strip | app/index/chatbot_index.py:33 | the stripped summary is a contiguous part of the model's answer with only whitespace removed at either end, and it neither starts nor ends with whitespace |
| Common.StripIdempotent | app/index/chatbot_index.py:33 | stripping an already stripped summary changes nothing |
| Common.NatToString | app/routes/authRoutes.py:106 | `str(id)` is a non-empty string of decimal digits whose decimal value is the id, with no leading zero, a single digit below ten |
| Common.DigitValue | app/utils/jwt.py:30 | a digit's value is below ten and prints back as that digit |
| Common.ParseIntNatToString | app/utils/jwt.py:30 | `int()` of the decimal text of a number is that number |
| Common.ParseIntSigned | app/utils/jwt.py:30 | `int()` of that text behind a `-` is the negated number, behind a `+` the number |
| Schema.ParseRole | schema.py:59-62 | a role string is accepted exactly when it is `farmer`, `expert` or `admin`, and the accepted member has that string as its value |
| Schema.ParseRoleValue | schema.py:59-62 | every role's value parses back to that role |
| Schema.LengthCheck | schema.py:108 | a bounded-length field passes exactly when its length lies between the bounds, inclusive |
| Schema.MinLengthCheck | schema.py:143 | a field with only a minimum passes exactly when it is at least that long, and otherwise fails as too short |
| Schema.MaxLengthCheck | schema.py:109-111 | a field with only a maximum passes exactly when it is no longer than it |
| Schema.PhoneNumberCheck | schema.py:123-127 | a phone number passes exactly when it has 10 to 15 characters and all are digits; the digits error is reported only when the length was right |
| Schema.PasswordCheck | schema.py:129-133 | a password passes exactly when it has at least 6 characters; the validator's own message can never be the one reported, since the length constraint runs first |
| Schema.ConfirmPasswordCheck | schema.py:135-140 | the confirmation fails exactly when an accepted, non-empty password is present and differs from it |
| Schema.RoleCheck | schema.py:98 | the role passes when it is omitted or names one of the three roles |
| Schema.LandHoldingsCheck | schema.py:115 | land holdings pass exactly when they are at least 0 |
| Schema.LanguageCheck | schema.py:119 | the language passes when it is omitted or at most 10 characters |
| Schema.Collect | schema.py:103-140 | there are no errors exactly when every field passed; each failing field is reported, and nothing else is |
| Schema.ChecksPassIffAcceptable | schema.py:103-140 | the eleven field checks all pass exactly when the body meets every constraint of the registration schema |
| Schema.ValidateUserCreate | schema.py:94-140 | a registration body is accepted exactly when it meets every constraint, and a rejection lists at least one error; every accepted field, the four location fields included, is kept, and an omitted role, country code or language becomes `farmer`, `+91` or `hi` |
| Schema.ConfirmPasswordDependsOnPassword | schema.py:135-140 | a rejected password suppresses the mismatch error on its confirmation; an accepted password that differs from its confirmation produces that error |
| Schema.ValidateUserLogin | schema.py:142-152 | a login body is accepted exactly when the password has at least 6 characters and the phone number 10 to 15 digits; an omitted country code becomes `+91`, while an explicit `null` is kept as no value and a given code is kept as sent |
| Gemini.YieldKeysExtendCropKeys | geminiResponse.py:88-105 | the yield call requires 16 keys: `item, area, year, predicted_yield, unit` followed by the crop call's 11 keys |
| Gemini.Instruction | geminiResponse.py:34-44 | the instruction starts with its preamble and contains both the required-key list as Python prints it and the serialised payload |
| Gemini.RequestBody | geminiResponse.py:46-51 | the body has exactly the keys `contents` and `generationConfig`, and the latter asks for a JSON response |
| Gemini.ResponseText | geminiResponse.py:60 | a reply that is not an object, has no `candidates`, or has an empty candidate list yields no text |
| Gemini.ResponseTextOfEnvelope | geminiResponse.py:60 | the text of a reply with one candidate holding one part is found, whatever other keys the candidate, content and part carry |
| Gemini.RequestBodyCarriesText | geminiResponse.py:46-51 | the instruction text sits at `contents[0].parts[0].text` of the request body |
| Gemini.Completion | geminiResponse.py:63-65 | after completion every required key is present, every key the reply had keeps its value, and every added key is a required key mapped to `"N/A"` |
| Gemini.CompletionIdempotent | geminiResponse.py:63-65 | completing an already completed object changes nothing |
| Gemini.FillMissing | geminiResponse.py:63-65 | the fill loop computes exactly the completion of the parsed object |
| Gemini.Repair | geminiResponse.py:59-65 | on an object the fill loop yields its completion; a list or a string survives only when it already holds every key, unchanged; any other value fails |
| Gemini.ParseReply | geminiResponse.py:59-70 | a missing path to the text, text that does not parse, or a failing fill step each give exactly the error object with the raw reply; when the text is found, parses and the fill step succeeds, the result is exactly that repaired value; any other result is the repair of the parsed text |
| Gemini.HandleReply | geminiResponse.py:55-70 | a status other than 200 always raises with that status and text; a value is returned exactly for a 200 reply with a JSON body, and it is the parsed and repaired reply |
| Gemini.HandleReplyResult | geminiResponse.py:59-70 | a returned value is the error object, an object holding every required key, or a list or string that already held them; a 200 reply whose text parses to an object returns that object completed with `N/A` for the missing keys, so it holds every required key |
| Gemini.Exchange | geminiResponse.py:34-70 | the instruction over the required keys goes out, a non-200 reply raises, and a returned value is the error object or holds every required key (or is a list or string that did); a 200 reply whose text parses to an object returns that object completed, holding every required key |
| Jwt.IntOf | app/utils/jwt.py:30 | `int()` of a claim: an integer is kept, a boolean is 1 or 0, a float is truncated toward zero, a string is parsed as an integer literal or refused with a ValueError, and exactly null, lists and objects give a TypeError |
| Jwt.Decode | app/utils/jwt.py:30 | a token decodes, to its own claims, exactly when it was signed over those claims with the key and any `exp` coerces to an integer not in the past; an `exp` text that is no integer is the claims error, an `exp` that `int()` refuses by type raises that TypeError, and a coerced `exp` in the past is the expiry error |
| Jwt.NumericTextExpActsAsNumber | app/utils/jwt.py:30 | an `exp` written as the decimal text of a number decodes and expires at exactly the instants the number would |
| Jwt.Lifetime | app/utils/jwt.py:15-18 | a non-zero delta is the lifetime; an absent or zero delta means 30 minutes |
| Jwt.ClaimsToEncode | app/utils/jwt.py:14-19 | the encoded claims are the caller's claims plus `exp = now + lifetime`, every other claim unchanged |
| Jwt.CreateAccessToken | app/utils/jwt.py:13-20 | the token carries exactly those claims, and it decodes at issue time exactly when the lifetime is not negative |
| Jwt.IssuedTokenLifetime | app/utils/jwt.py:13-20 | an issued token decodes up to and including its expiry instant and is reported expired at every later instant |
| Jwt.TamperedTokenRejected | app/utils/jwt.py:30 | a token whose claims were changed after signing, or that was signed with another key, never decodes |
| Jwt.VerifyToken | app/utils/jwt.py:22-40 | every failure is a 401; a library error carries the Bearer challenge; an exception of another kind becomes a 401 with that exception's text and no challenge; the payload is returned unchanged exactly when it decodes and has a non-null `sub` |
| Jwt.DecodeToken | app/utils/jwt.py:43-57 | a failure is a 500 exactly when jose raised something other than a `JWTError`, and a 401 otherwise; the claims are returned exactly when the token decodes |
| Jwt.ExpiryPhraseOnlyInExpired | app/utils/jwt.py:51 | of jose's three messages only the expiry one contains "Signature has expired" |
| Jwt.DecodeTokenClassifies | app/utils/jwt.py:47-57 | a library error is one of the three messages; an expired genuine token reads "Token expired"; a bad signature or an `exp` text that is no integer reads "Invalid token"; an `exp` of a type `int()` refuses is a 500 |
| Jwt.IssuedTokenVerifies | app/utils/jwt.py:22-40 | a token issued over claims with a `sub` passes verification for its whole lifetime and fails with the Bearer challenge afterwards |
| AuthRoutes.RegisterRejection | app/routes/authRoutes.py:27-35 | a registration is refused with a 400 exactly when the email, phone or Aadhaar number is taken or the terms were not accepted; the first failing check in the order email, phone, Aadhaar, terms gives the detail |
| AuthRoutes.NewUser | app/routes/authRoutes.py:37-54 | the new row keeps the request's email, phone, Aadhaar number, full name, terms flag, the four location fields, pincode and land holdings, stores the hash of the password, takes the column defaults `+91` and `hi` for country code and language, is active and never logged in, and is ADMIN exactly when the table was empty, FARMER otherwise |
| AuthRoutes.RequestedRoleIgnored | app/routes/authRoutes.py:38-51 | the role, country code and language named in the request have no effect on the stored row |
| AuthRoutes.FirstWithPhone | app/routes/authRoutes.py:82 | the lookup finds the first row with that phone number, and finds none exactly when no row has it |
| AuthRoutes.LoginClaims | app/routes/authRoutes.py:104-110 | the token claims are exactly `sub` (the id as text), `phone` and `role` (the role's value) |
| AuthRoutes.LoginOutcome | app/routes/authRoutes.py:82-121 | every refusal is a 401; no row with the phone gives "Invalid phone number or password", a deactivated row gives the deactivation detail whatever the password, and an active row with a wrong password gives "Invalid phone number or password"; a login succeeds exactly when a row with the phone exists, is active and the password checks against its hash; the reply carries a bearer token over the row's claims, its id, role and name |
| AuthRoutes.LoginIgnoresEmail | app/routes/authRoutes.py:82 | the email in a login request never changes its outcome |
| AuthRoutes.LoginTokenVerifies | app/routes/authRoutes.py:104-121 | the token of a successful login passes verification for 30 minutes, naming the user's id and role |
| AuthRoutes.RegisteredUserCanLogIn | app/routes/authRoutes.py:20-121 | right after registering, the same phone and password log in to the new row, whatever email is given |
| AuthRoutes.AppendKeepsWellFormed | app/routes/authRoutes.py:27-59 | adding a row under a fresh id that clashes on no unique column keeps ids, emails, phones and Aadhaar numbers unique |
| AuthRoutes.UpdateKeepsWellFormed | app/routes/authRoutes.py:102-113 | recording a login on a row keeps the table's uniqueness guarantees |
| AuthRoutes.UserTable.constructor | app/Tables/UserTable.py:26-29 | the table starts empty and well formed, and the next id is 1 |
| AuthRoutes.UserTable.Register | app/routes/authRoutes.py:20-72 | a refusal returns its reason and leaves the table unchanged; a success appends exactly the new row under the next id and reports it, ADMIN when the table was empty |
| AuthRoutes.UserTable.Login | app/routes/authRoutes.py:74-121 | a refusal changes nothing; a success returns the reply and, on the matched row only, sets the last login time; the token is returned and not stored |
| ChatDatabase.Matching | app/database/chatbot_database.py:44-45 | only rows of that user and that session are selected |
| ChatDatabase.MatchingCounts | app/database/chatbot_database.py:44-45 | each row of that user and session is selected as often as it is stored, and no other row is selected |
| ChatDatabase.MatchingAppend | app/database/chatbot_database.py:44-45 | the selection keeps storage order: selecting from two stretches of the log gives the first stretch's rows then the second's, and a single row is selected exactly when it belongs to the session |
| ChatDatabase.Project | app/database/chatbot_database.py:44 | each selected row becomes its (role, message) pair, in order |
| ChatDatabase.History | app/database/chatbot_database.py:40-50 | the history has one entry per row of that user and session |
| ChatDatabase.HistoryPermutesSession | app/database/chatbot_database.py:40-50 | the history is the (role, message) projection of the session's rows, as a multiset exactly, rearranged into timestamp order |
| ChatDatabase.HistoryFromSession | app/database/chatbot_database.py:40-50 | every history entry is the role and message of a row of that user and session |
| ChatDatabase.HistoryOrdered | app/database/chatbot_database.py:46 | the history rows come back ordered by timestamp |
| ChatDatabase.AppendOtherKeepsHistory | app/database/chatbot_database.py:30-50 | saving a message of another user or session leaves a conversation's history unchanged |
| ChatDatabase.AppendLatestExtendsHistory | app/database/chatbot_database.py:30-50 | saving a message no older than any stored one adds exactly its role and text at the end of that history |
| ChatDatabase.HistoryInStorageOrder | app/database/chatbot_database.py:40-50 | with a clock that never ran backwards, the history is the conversation's messages in the order they were saved |
| ChatDatabase.ChatStore.constructor | app/database/chatbot_database.py:3 | a new database file has no tables, no rows and no summaries |
| ChatDatabase.ChatStore.InitDb | app/database/chatbot_database.py:5-27 | afterwards both tables exist and all data is kept, so running it again changes nothing |
| ChatDatabase.ChatStore.SaveMessage | app/database/chatbot_database.py:30-38 | exactly one row is appended and nothing else changes |
| ChatDatabase.ChatStore.LoadChatHistory | app/database/chatbot_database.py:40-50 | the loaded history is the projection of exactly the session's stored rows, rearranged into timestamp order |
| ChatDatabase.ChatStore.SaveUserSummary | app/database/chatbot_database.py:53-62 | the user's summary is replaced, or inserted when they had none; other users' summaries and the chat log are unchanged |
| ChatDatabase.ChatStore.GetUserSummary | app/database/chatbot_database.py:64-70 | the user's stored summary, or the empty string when there is none |
| ChatIndex.OrSentinel | app/index/chatbot_index.py:30 | a non-empty summary is kept; the result is never empty |
| ChatIndex.SummaryPromptCarries | app/index/chatbot_index.py:20-25 | the summariser gets a system instruction, then a human message containing the current summary and the snippet |
| ChatIndex.BuildPromptWithSummary | app/index/chatbot_index.py:38-43 | the system text starts with the assistant introduction and contains the summary, or the sentinel |
| ChatIndex.Render | app/index/chatbot_index.py:44-48 | the rendered prompt is the system message, then the history unchanged, then the human input |
| ChatIndex.TurnPromptShape | app/index/chatbot_index.py:38-48 | a turn's prompt shows the summary when there is one and "No summary yet." otherwise, with the history between the system text and the input |
| ChatIndex.SnippetCarries | app/index/chatbot_index.py:79 | the snippet begins with "Farmer: " and contains the input and the reply |
| ChatIndex.AsMessages | app/index/chatbot_index.py:59-60 | each loaded pair becomes one message with that role and content, in order |
| ChatIndex.Replay | app/index/chatbot_index.py:57-61 | the replay loop rebuilds exactly the loaded history, in load order |
| ChatIndex.ConcatNonEmpty | app/index/chatbot_index.py:104-112 | skipping empty chunks does not change the concatenated response |
| ChatIndex.Accumulate | app/index/chatbot_index.py:104-112 | exactly the non-empty chunks are sent, in order, and the full response is the concatenation of what was sent, which equals that of all chunks |
| ChatIndex.Gateway.constructor | app/index/chatbot_index.py:17-18 | both caches start empty and agree with the database |
| ChatIndex.Gateway.TurnSummary | app/index/chatbot_index.py:51 | a non-empty cached summary is used; otherwise the durable one is |
| ChatIndex.Gateway.CacheAgreesWithStore | app/index/chatbot_index.py:27-36 | since the cache is only written together with the database, the summary a turn uses is always the durable one |
| ChatIndex.Gateway.UpdateSummary | app/index/chatbot_index.py:27-36 | the summariser gets the durable summary (or the sentinel) and the snippet; its stripped answer is stored in the database and the cache and returned; a failure changes nothing; the log is untouched |
| ChatIndex.Gateway.EnsureSession | app/index/chatbot_index.py:57-61 | an uncached session is loaded from the log; a cached session is never reloaded; the summary cache is untouched |
| ChatIndex.HistoryOfCachedOrReplayed | app/index/chatbot_index.py:57-61 | a cached session's history is the cached one; an uncached session replays one message per stored row of that user and session, each with that row's role and message |
| ChatIndex.Started | app/index/chatbot_index.py:57-61 | starting a turn caches the session and changes nothing else; a session already cached is left as it is |
| ChatIndex.Prompt | app/index/chatbot_index.py:51-52 | the model's prompt opens with a system message containing the durable summary or the sentinel and ends with the human input |
| ChatIndex.Concluded | app/index/chatbot_index.py:70-80 | the outcome is the model failure exactly when the model raised, and then nothing changes; an answer is the reply text of a successful outcome and logs exactly the turn's two rows |
| ChatIndex.Turn | app/index/chatbot_index.py:50-82 | a turn always leaves its session cached and changes no other user's summary; it fails with the model exactly when the model raised on the turn's prompt, logging nothing; otherwise it logs exactly the two rows of the exchange |
| ChatIndex.AsChat | app/index/chatbot_index.py:104-112 | a stream answers exactly when it completed, and its answer is the concatenation of the non-empty chunks it sent |
| ChatIndex.TurnModelRaises | app/index/chatbot_index.py:56-73 | when the chat model raises, the turn has cached the replayed session and nothing else: no row is logged, neither summary changes, and the outcome is the model failure |
| ChatIndex.ConcludedRecords | app/index/chatbot_index.py:74-77 | an answered turn adds exactly the human message and the answer to the cached session, whatever it held, and exactly the two rows to the log |
| ChatIndex.TurnRecordsExchange | app/index/chatbot_index.py:56-77 | when the model answers, the session's history (cached or replayed) gains exactly the human message and the answer, every other session is untouched, and the log gains exactly the human row then the ai row |
| ChatIndex.TurnRefreshesSummary | app/index/chatbot_index.py:27-36 | when the model answers, the summariser is given the durable summary (or the sentinel) and the turn's snippet; its failure is the turn's outcome and changes no summary, and its stripped answer becomes the user's summary in both stores |
| ChatIndex.TurnKeepsCacheAgreement | app/index/chatbot_index.py:34-35 | a turn never leaves a cached summary that differs from the durable one |
| ChatIndex.LogReplaysTurn | app/index/chatbot_index.py:76-77 | with a clock that has not run backwards, the two rows of a turn replay as its two messages after the session's earlier ones |
| ChatIndex.TurnLogMatchesCache | app/index/chatbot_index.py:57-77 | after an answered turn the log replays the session with the same two new messages the cache gained, and a session first seen in this turn is cached exactly as the log now replays it |
| ChatIndex.Gateway.PrepareTurn | app/index/chatbot_index.py:51-61 | the start of a turn caches the session's history and builds the prompt from the durable summary, that history and the input |
| ChatIndex.Gateway.Conclude | app/index/chatbot_index.py:70-80 | after the model call the state and outcome are `ChatIndex.Concluded`'s: nothing changes on a raise; otherwise the messages are cached, the rows logged and the summary refreshed, and the cached summaries still agree with the durable ones |
| ChatIndex.Gateway.RunConversation | app/index/chatbot_index.py:50-82 | the new state and the outcome are those of `ChatIndex.Turn` from the old state, whose effects the Turn lemmas above state; the cached summaries keep agreeing with the durable ones and the table flags do not change |
| ChatIndex.Gateway.RunConversationStream | app/index/chatbot_index.py:85-118 | exactly the non-empty chunks are sent, in order; the new state and outcome are those of a plain turn whose model answers the concatenation of the chunks, or raises when the stream did not complete |
| ChatRoutes.RoleName | app/routes/ChatBotRoutes.py:37 | "human" stays "human"; every other role, "ai" included, becomes "assistant" |
| ChatRoutes.Format | app/routes/ChatBotRoutes.py:35-39 | the formatting loop keeps the number and order of the rows, maps each role and keeps each message unchanged |
| ChatRoutes.GetSessionHistory | app/routes/ChatBotRoutes.py:28-39 | the endpoint returns the formatted history of that user's session, one entry per stored message |
| ChatRoutes.SessionIds | app/routes/ChatBotRoutes.py:49-54 | every id listed is the session of one of the user's rows, and every such session is listed |
| ChatRoutes.GetAllSessionsUser | app/routes/ChatBotRoutes.py:42-56 | each session with at least one row for the user is listed exactly once, and no other |
| ChatRoutes.SaveMessageSessions | app/routes/ChatBotRoutes.py:49-53 | a saved message puts its session in its user's list and leaves every other user's list unchanged |
| ChatRoutes.Respond | app/routes/ChatBotRoutes.py:25 | a reply is wrapped unchanged as the response; a failed turn becomes a 500 |
| ChatRoutes.ChatEndpoint | app/routes/ChatBotRoutes.py:15-25 | the request's user, session and message go to the turn unchanged, the new state is that turn's, and the response is its outcome as `ChatRoutes.Respond` maps it |
| Notifications.FindOwned | app/routes/Notifications.py:56-60 | the first row with that id that belongs to the caller, and none exactly when the caller owns no row with that id |
| Notifications.AfterMark | app/routes/Notifications.py:65 | after marking, only the found row changes, becoming read |
| Notifications.AfterDelete | app/routes/Notifications.py:87 | after deleting, exactly the found row is gone and the others keep their order; without a match nothing changes |
| Notifications.MarkTouchesOnlyOwnRow | app/routes/Notifications.py:56-69 | marking changes no field but `is_read`, and only on a row of the caller with that id |
| Notifications.MarkIdempotent | app/routes/Notifications.py:50-69 | marking a notification twice is the same as marking it once |
| Notifications.DeleteKeepsOthers | app/routes/Notifications.py:72-90 | a delete never removes another user's notification |
| Notifications.MyNotifications | app/routes/Notifications.py:41-47 | the listing holds exactly the caller's rows, as a multiset, newest `created_at` first |
| Notifications.MyNotificationsComplete | app/routes/Notifications.py:43 | each of the caller's rows appears in the listing |
| Notifications.NotificationTable.constructor | app/Tables/Notiifcaitions.py:6-9 | the table starts empty with unique ids |
| Notifications.NotificationTable.GetMyNotifications | app/routes/Notifications.py:41-47 | the endpoint returns the caller's stored rows and no other, as a multiset exactly, newest `created_at` first |
| Notifications.NotificationTable.Create | app/routes/Notifications.py:16-33 | one unread row is appended, with the caller's id, the given title, message and type, and a fresh id |
| Notifications.NotificationTable.MarkAsRead | app/routes/Notifications.py:50-69 | a 404 unless the caller owns a row with that id; otherwise only that row becomes read and is returned |
| Notifications.NotificationTable.Delete | app/routes/Notifications.py:72-90 | a 404 unless the caller owns a row with that id; otherwise exactly that row is removed and the confirmation returned |
| Feedbacks.UserFeedbacks | app/routes/Feedbacks.py:44 | the listing holds only the caller's feedback, and all of it |
| Feedbacks.ListFeedbacks | app/routes/Feedbacks.py:44-49 | the message appears exactly when the caller has no feedback, and the list is then empty |
| Feedbacks.AppendShowsForAuthorOnly | app/routes/Feedbacks.py:26-44 | a new entry appears at the end of its author's listing and in no other user's |
| Feedbacks.FeedbackTable.constructor | app/Tables/Feedbacks.py:5-8 | the table starts empty with unique ids |
| Feedbacks.FeedbackTable.GetMyFeedbacks | app/routes/Feedbacks.py:44-49 | the endpoint returns only the caller's stored entries and all of them, or the "No feedbacks found" message exactly when there are none |
| Feedbacks.FeedbackTable.CreateFeedback | app/routes/Feedbacks.py:15-37 | a rating outside 1 to 5 is a 400 and stores nothing; otherwise exactly one row is appended with the caller's id and the rating, category and comment unchanged |
| CropPrediction.Features | app/routes/CropPrediction.py:29-37 | the feature vector is N, P, K, temperature, humidity, pH, rainfall, in that order |
| CropPrediction.CropDict | app/routes/CropPrediction.py:44-47 | the table is defined on labels 1 to 22 exactly, each naming the crop at that position |
| CropPrediction.CropNamesDistinct | app/routes/CropPrediction.py:44-47 | the 22 labels name 22 different crops, 1 being Rice and 22 Coffee |
| CropPrediction.Verdict | app/routes/CropPrediction.py:49-53 | a label from 1 to 22 yields "<crop> is the best crop to be cultivated right there"; any other label yields the apology |
| CropPrediction.Payload | app/routes/CropPrediction.py:55-64 | the forwarded payload holds the seven inputs unchanged under their names, plus `crop` |
| CropPrediction.Predict | app/routes/CropPrediction.py:29-68 | the classifier sees the standard-scaled, min-max-scaled features; an unknown label fails; a known one forwards the payload for its crop to the advice call |
| CropPrediction.UnknownLabelFails | app/routes/CropPrediction.py:49-63 | a label outside 1 to 22 always fails, whatever the measurements |
| CropPrediction.KnownLabelForwardsCrop | app/routes/CropPrediction.py:49-66 | a label from 1 to 22 forwards the crop that label names |

## Left out

- Email validation (`EmailStr`): an email is any string.
- Schema.ValidateUserCreate: an explicit JSON `null` is not a separate input. For `role` and `country_code`, which are not optional, validation would reject it. For `preferred_language` (`Optional[str]`) it would be kept as no value. The model lets `None` stand only for an omitted field, so it never states either outcome. The registration route does not read these three fields.
- `str.isdigit` is modelled for ASCII digits only; other Unicode digits that Python accepts are not.
- The optional registration fields that no endpoint reads (land and soil type, phone verification, OTP secret) are not part of the schema model.
- bcrypt itself: hashing and checking are parameters, and a lemma that needs them to agree says so in its precondition.
- Jwt.IntOf: `int()` of a string is modelled for ASCII digits and Python's whitespace; other Unicode digits, which Python also accepts, are taken to raise the ValueError. A float that is infinite or NaN, whose `int()` raises OverflowError or ValueError, cannot occur since floats are reals here.
- Jwt.IntOf: the TypeError text is the one Python 3.10 and later print; earlier versions word it differently.
- The signing algorithm and jose's other claim checks (`iat`, `nbf`, `aud`, `iss`, the type of `sub`): the token model checks only the signature and `exp`.
- The outbound HTTP request, its headers and `resp.json()`: the reply is a parameter, with `None` for a body that is not JSON.
- The model internals: the chat model, the summariser and the stream are parameters, and `None` (or an incomplete stream) stands for a call that raised.
- The message-history wrapper that writes the human and ai messages back into the session cache is modelled by its effect only.
- Braces in the system text are taken literally. The prompt library would read a `{` in a summary as a template variable.
- Rows with equal timestamps are assumed to come back in storage order; SQL leaves their order open. Likewise the feedback listing has no ORDER BY and is taken to come back in storage order (`Feedbacks.UserFeedbacks`, `Feedbacks.AppendShowsForAuthorOnly`).
- The order of `SELECT DISTINCT` is taken to be first appearance; SQL does not fix it.
- Concurrency: two registrations racing past the duplicate checks, the resulting `IntegrityError`, and the rollback path.
- The `reponse`/`response` field-name mismatch between the chat response schema and the endpoint: the model wraps the reply as a response.
- A chat database whose tables were never created: the start-up call to `init_db` is commented out in app/main.py:32, and the resulting "no such table" errors are not modelled.
- Ids are handed out by a counter starting at 1 with no reuse; the database engine's own allocation is not modelled.
- The empty body FastAPI sends for the 204 status of a notification delete: the model returns the confirmation text the handler builds.
- The message "Feedback submitted successfully" that accompanies a new feedback: the model returns the stored row only.
- Websocket plumbing: each `send_text` is an element of the `sent` output of the stream turn.
- app/routes/YieldPrediction.py, app/routes/CropGuidance.py, app/routes/user.py and app/main.py are not part of this model; they are glue around the modelled calls.
- The pickled scalers and classifier, numpy, and floating point: measurements are reals and the three models are parameters.
- Clocks: `datetime.now`, `datetime.utcnow` and the database's `CURRENT_TIMESTAMP` are all the integer `now`; both rows of one turn share one `now`.
- The authenticated caller of the notification and feedback endpoints is given by id; the token dependency that produces it is not modelled.
- CropPrediction.Verdict: computed as the source computes it, but, as in the source, never returned to the caller.
- Gemini.Completion: the model gives the completed object as a map, so the order of its keys is not modelled. In the source the parsed keys keep their order and the filled ones follow in the order of the required list.
- Gemini.CallGemini and Gemini.CallGeminiYield: each is `Gemini.Exchange` over its own keys, preamble and heading. Their contracts are those of `Gemini.Exchange`, with the key lists related by `Gemini.YieldKeysExtendCropKeys`.
