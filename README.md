# sendyxmail in Dafny

sendyxmail is a mail-to-chat gateway for the eXpress messenger. A client sends a JSON
message, with a bearer token, to `POST /api/v0/message` or
`/api/v0/message/with-status`. The gateway then decides where the message goes:

- An address ending in the group suffix `@chat-id.internal` names a group chat by its
  UUID.
- Any other address is looked up as a platform user, and a chat with that user is
  opened.

Two stores sit beside the pipeline:

- The token store holds the accepted bearer tokens. It is reloaded from a YAML file.
- The mute store holds the chats the bot must not write to. It is a line-per-entry file
  that is saved through a backup copy and a temporary file.

A bot command handler lets chat admins `/mute` and `/unmute` the bot in their chat, and
shows them the chat's own gateway address. Its replies come from a table of Russian
and English texts.

This project models that core:

| file | module | models |
|---|---|---|
| `apiv0.dfy` | `ApiV0` | `apiv0/apiv0.go`: authentication, both mute gates, address routing, status codes, button assembly, dispatch mode, and the handler as written |
| `models.dfy`, `botmodels.dfy` | `Models`, `BotModels` | the request types and the platform structures the core reads |
| `mutemanager.dfy` | `MuteManager` | `mutemanager/mutemanager.go` as a class over a `Disk` that maps paths to contents |
| `tokenmanager.dfy` | `TokenManager` | `tokenmanager/tokenmanager.go` as a class whose `tokens` map is reloaded in place |
| `command_handler.dfy` | `CommandHandler` | `command_handler.go`: the admin test, command parsing, the reply table and the mute switch |
| `strings.dfy` | `MessageTable`, `MessageIds`, `MessageCoverage`, `Localization` | `strings.go`: the text table and its two-level fallback |
| `sendyxmail.dfy` | `Sendyxmail` | the wiring in `sendyxmail.go`: the two check adapters, opening the mute store, and the properties that span the command handler and the pipeline |
| `text.dfy`, `uuid.dfy`, `wrappers.dfy` | `Text`, `Uuid`, `Wrappers` | the parts of Go's `strings` package and of `github.com/google/uuid` that the core relies on, plus `Option`/`Result` |

The model represents the source as follows:

- The pipeline is pure: it is a function from a request and the answers of its
  collaborators to an outcome. An outcome is a status code with a result text and,
  optionally, the message dispatched. The collaborators are the token check, the mute
  check, the mail-address parser and the platform client.
- The button loops and the step-by-step handler are methods proved equal to those
  functions.
- The mute store and the token store are classes whose methods change their fields in
  place.
- Every file operation that can fail takes a fault parameter that names the step that
  fails.

## Model

| member | source | states |
|---|---|---|
| `ApiV0.ExtractBearerToken` | apiv0/apiv0.go:214-229 | The token is always trimmed. A non-empty token means the trimmed header has at least 7 characters and starts with "bearer" in any case. The token is no longer than what follows the scheme. |
| `ApiV0.BearerTokenOfHeader` | apiv0/apiv0.go:214-229 | For a header made of padding, the scheme "bearer" in any case, optional spacing, a non-empty trimmed token and padding, the extracted token is exactly that token. With no spacing, "bearerabc" gives "abc". |
| `ApiV0.BearerHeaderTrimmed` | apiv0/apiv0.go:215 | Trimming such a header removes exactly the outer padding. |
| `ApiV0.NoSchemeNoToken` | apiv0/apiv0.go:217-219 | A trimmed header shorter than 7 characters, or one not starting with "bearer", gives the empty token. |
| `ApiV0.AuthenticateClient` | apiv0/apiv0.go:199-212 | With no token check configured, the result is an error. An empty token gets 401 with the "required 'Authorization: Bearer <token>' header" text. A request passes exactly when the check is configured, the token is non-empty and the check accepts it, and then the token passed on is the extracted one. Every refusal is a 401. |
| `ApiV0.GroupAddressRouting` | apiv0/apiv0.go:131-135 | When the address ends in the group suffix, prefix + suffix is the address. The address resolves exactly when the prefix is canonical UUID text, and it resolves to the UUID whose text is the prefix. A non-canonical prefix gets 422. The platform client is never consulted. |
| `ApiV0.UserAddressRouting` | apiv0/apiv0.go:113-130 | Without the suffix, the lookup outcome maps to a status: a lookup error gives 500 with its text, no user gives 404, more than one user gives 417, a user who is not `cts_user` gives 428, and a chat-creation error gives 503 with its text. Only the remaining case resolves, to the created chat. |
| `ApiV0.ButtonOptionsPresent` | apiv0/apiv0.go:153-168 | Each of the five button options is present exactly when its field is non-empty or non-zero. |
| `ApiV0.ButtonOptionsCarry` | apiv0/apiv0.go:153-168 | Every option carries its own button's field value. |
| `ApiV0.ButtonOptionsOrdered` | apiv0/apiv0.go:153-168 | The options come in the order align, font colour, background, alert, horizontal size. |
| `ApiV0.BubbleRows` | apiv0/apiv0.go:148-175 | There is at most one bubble row per input row, and every bubble row is non-empty. |
| `ApiV0.BubbleRowsConcat` | apiv0/apiv0.go:149-174 | Row assembly distributes over concatenation, so row order is kept. |
| `ApiV0.BubbleRowsOfOneRow` | apiv0/apiv0.go:150-173 | An empty row is dropped. A non-empty row becomes one bubble row of its buttons, in order. |
| `ApiV0.RequestOptions` | apiv0/apiv0.go:147-177 | The metadata option is always present and always last. Every option before it is a bubble row. |
| `ApiV0.BuildButton` | apiv0/apiv0.go:152-171 | The option-appending steps build exactly the specified button. |
| `ApiV0.BuildButtonRow` | apiv0/apiv0.go:151-171 | The button loop builds exactly the row's buttons, in order. |
| `ApiV0.BuildRequestOptions` | apiv0/apiv0.go:147-177 | The nested loops build exactly the specified option list. |
| `ApiV0.Deliver` | apiv0/apiv0.go:138-196 | If the second gate refuses the chat id's text, the answer is exactly 451 with the gate's text and nothing is dispatched; a reply without a dispatch happens only then. Past the gate, the outcome is an error exactly when the client refuses to build the request, and the error is the client's text. Otherwise exactly the built request is dispatched in the given mode, and the reply is 503 with the send error's text, or "OK" with 202 for asynchronous and 201 for synchronous sending. |
| `ApiV0.Gate` | apiv0/apiv0.go:101-108 | Without a configured mute check nothing is refused; with one, the refusal is exactly the check's answer for the identifier. |
| `ApiV0.ResolveChat` | apiv0/apiv0.go:110-136 | A refusal comes only from the user lookup, and an unrecognised chat id only from a group address: it carries the parser's result for the prefix and status 422. `GroupAddressRouting` and `UserAddressRouting` state the rest. |
| `ApiV0.HandlePostMessage` | apiv0/apiv0.go:88-197 | A body that does not parse gets 422 "unable to parse json", and an address that does not parse gets 422 "unable to parse mail address". A dispatch carries the message body in the route's mode. `DispatchOnlyAfterGates`, `MutedAddressRefused`, `GroupAddressDelivery` and `UserAddressDelivery` state the rest. |
| `ApiV0.Serve` | apiv0/apiv0.go:80-86 | Without a token check the request ends in the "token check function not configured" error, and a refused token gets the middleware's 401 reply. An authenticated request is answered by the handler in the route's mode. |
| `ApiV0.PostMessageHandler` | apiv0/apiv0.go:88-197 | The handler as a sequence of early returns computes the same outcome as the pipeline function. |
| `ApiV0.DispatchOnlyAfterGates` | apiv0/apiv0.go:101-143 | Every dispatch has passed the first gate on the lower-cased address and the second gate on the chat id. It goes to the chat the address resolved to, with the message body, in the route's mode. |
| `ApiV0.MutedAddressRefused` | apiv0/apiv0.go:101-108 | An address refused by the first gate gets 451 with the gate's text. Nothing is dispatched, and the outcome does not depend on the platform client. |
| `ApiV0.UserAddressDelivery` | apiv0/apiv0.go:110-143 | For an address without the group suffix that passes the first gate, the handler's answer is the lookup's: 500 with the lookup error, 404, 417, 428, or 503 with the chat-creation error, each with nothing dispatched. Otherwise the message is delivered to the created chat. |
| `ApiV0.GroupAddressDelivery` | apiv0/apiv0.go:110-143 | A group address that passes the first gate is delivered to the parsed UUID when its prefix is canonical. Otherwise it gets 422 and nothing is dispatched. |
| `ApiV0.ServeDispatchesOnlyAuthenticated` | apiv0/apiv0.go:199-212 | Behind the middleware chain, a dispatch happens only for an authenticated request. `/message` dispatches asynchronously and `/message/with-status` synchronously. |
| `ApiV0.RouteSuccessStatus` | apiv0/apiv0.go:80-86 | A successful send answers 202 on `/message` and 201 on `/message/with-status`. |
| `ApiV0.HandlePostMessageAsWritten` | apiv0/apiv0.go:131-136 | The handler with the 422 not ending the request: a dispatch still carries the message body in the route's mode. The lemmas below state where it goes. |
| `ApiV0.AsWrittenDiffersOnlyOnUnrecognized` | apiv0/apiv0.go:131-136 | The handler as written differs from the terminating one only for an unrecognised group chat id. There it panics if the parse succeeded (the 32-digit, braced and `urn:uuid:` forms), and otherwise delivers to the nil UUID. |
| `ApiV0.RejectedPrefixReachesNil` | apiv0/apiv0.go:132-135 | With no mute check, a prefix the UUID parser rejects makes the handler as written deliver to the nil UUID. The terminating handler answers 422 without a dispatch. |
| `ApiV0.AcceptedPrefixPanics` | apiv0/apiv0.go:133-134 | A prefix that the parser accepts but that is not canonical makes the handler as written panic on the nil error. The terminating handler answers 422. |
| `ApiV0.NotAUuidReachesNilChat` | apiv0/apiv0.go:131-136 | `not-a-uuid@chat-id.internal` is delivered asynchronously to the nil UUID with 202 "OK" by the handler as written, and refused with 422 by the terminating one. |
| `ApiV0.BareHexPanics` | apiv0/apiv0.go:131-136 | The 32-digit form of any UUID, followed by the group suffix, makes the handler as written panic. The terminating handler answers 422. |
| `ApiV0.BracedUuidPanics` | apiv0/apiv0.go:131-136 | The braced form `{…}` of any UUID, followed by the group suffix, makes the handler as written panic. The terminating handler answers 422. |
| `ApiV0.MultibyteBraceReachesNil` | apiv0/apiv0.go:131-136 | With a multi-byte character in place of the opening brace, the parser reports a length error, so the handler as written delivers to the nil UUID. The terminating handler answers 422. |
| `ApiV0.GroupSuffixLower` | sendyxmail.go:23 | The configured group suffix has no upper-case letters. |
| `Uuid.ToString` | apiv0/apiv0.go:133 | The text of a UUID is canonical: 36 characters of lower-case hex with hyphens at positions 8, 13, 18 and 23, and each digit encodes the matching nibble. |
| `Uuid.Parse` | apiv0/apiv0.go:132 | A failed parse yields the nil UUID. Only single-byte text of 32, 36, 38 or 45 characters can parse without error. A length error reports the length in UTF-8 bytes. |
| `Uuid.ParseToString` | apiv0/apiv0.go:132-133 | Parsing the text of a UUID gives back that UUID with no error. |
| `Uuid.ToStringParse` | apiv0/apiv0.go:132-133 | Canonical text parses without error, back to itself. |
| `Uuid.RoundTripIffCanonical` | apiv0/apiv0.go:133 | The parsed UUID prints back as the input exactly when the input is canonical. |
| `Uuid.ParseBareString` | apiv0/apiv0.go:132-133 | The 32-digit form without hyphens parses without error to its UUID, and is not canonical. |
| `Uuid.ParseBraced` | apiv0/apiv0.go:132-133 | The text of a UUID with any one single-byte character on each side (the braced form) parses without error to that UUID, and is not canonical. |
| `Uuid.ParseMultibyteBraced` | apiv0/apiv0.go:132-133 | With a multi-byte character in front instead, the text is more than 38 bytes long and the parser reports an error of length. |
| `Uuid.ParseUrn` | apiv0/apiv0.go:132-133 | "urn:uuid:" followed by the text of a UUID parses without error to that UUID, and is not canonical. |
| `Text.TrimSpace` | apiv0/apiv0.go:215 | The result is trimmed, and it is the input with only white space removed from both ends. |
| `Text.TrimSpacePadded` | apiv0/apiv0.go:222 | Trimming a trimmed text padded with white space gives back that text. |
| `Text.ToLower` | apiv0/apiv0.go:101 | Lower-casing keeps the length and lower-cases each character. |
| `Text.ToLowerOfLower` | apiv0/apiv0.go:101 | Text without upper-case letters is left unchanged. |
| `Text.EqualFold` | apiv0/apiv0.go:217 | Two texts are equal under case folding exactly when they have the same length and agree character by character once lower-cased. |
| `Text.CutSuffix` | apiv0/apiv0.go:112 | The cut succeeds exactly when the text ends in the suffix, and then prefix + suffix is the text. Otherwise the text is returned whole. |
| `Text.FirstField` | command_handler.go:19-23 | The result is the leading part of the text up to, but not including, the first space. |
| `Text.FirstFieldOfWord` | command_handler.go:19-23 | A space-free word followed by nothing or by a space-led tail yields that word. |
| `MuteManager.AbsPath` | mutemanager/mutemanager.go:26 | Resolving the path fails exactly when it is relative and there is no working directory. An absolute working directory gives an absolute result. |
| `MuteManager.PathsDistinct` | mutemanager/mutemanager.go:82-86 | The file, its `.mmbak` backup and its `.mmtemp` temporary file are three different paths. |
| `MuteManager.CopyOutcome` | mutemanager/mutemanager.go:159-181 | Only the target can change. On success the source existed and the target holds its content, or nothing when the target is the source itself. |
| `MuteManager.CopyOutcomeSpec` | mutemanager/mutemanager.go:159-181 | A copy succeeds exactly when both paths are absolute, the source exists and no step fails, and then the target holds the source's content. Relative paths give the "must be absolute" error and a missing source gives not-exist, in both cases touching nothing. Only the target can change, and it is left as it was or holds a prefix of the source's content, as after a copy that fails part-way. |
| `MuteManager.CreateCopy` | mutemanager/mutemanager.go:159-181 | The copy's steps give exactly the specified outcome on the disk. |
| `MuteManager.SaveOutcome` | mutemanager/mutemanager.go:80-118 | The temporary file never remains after a save. `SaveOutcomeSuccess`, `SaveOutcomeMissingFile` and `SaveOutcomeFrame` state the rest. |
| `MuteManager.SaveOutcomeSuccess` | mutemanager/mutemanager.go:80-118 | A save succeeds exactly when the file is absolute and exists, the temporary name is free and no step fails. Then the backup holds the old content and the file holds the new content. |
| `MuteManager.SaveOutcomeMissingFile` | mutemanager/mutemanager.go:82-85 | Saving over a missing file fails at the backup step with not-exist, and it changes nothing. |
| `MuteManager.SaveOutcomeFrame` | mutemanager/mutemanager.go:80-117 | A failure before the final copy leaves the file as it was. A copy that fails part-way in the final copy leaves a prefix of the new content in the file, and a failed sync leaves the whole new content. Nothing but the file and its backup changes. |
| `MuteManager.JoinAppend` | mutemanager/mutemanager.go:95-100 | Writing one more entry appends it and a newline. |
| `MuteManager.ScanLines` | mutemanager/mutemanager.go:139-143 | No scanned line contains a newline. |
| `MuteManager.ScanJoin` | mutemanager/mutemanager.go:95-143 | Scanning what the save wrote gives back the entries, in order, when no entry contains a newline or ends in a carriage return. |
| `MuteManager.CarriageReturnLost` | mutemanager/mutemanager.go:139-143 | An entry that ends in a carriage return comes back without it. |
| `MuteManager.NewlineSplits` | mutemanager/mutemanager.go:95-100 | An entry that contains a newline comes back as two entries. |
| `MuteManager.CollectLines` | mutemanager/mutemanager.go:140-143 | The scan loop maps every line to `true`, so duplicates collapse. |
| `MuteManager.MuteManager.constructor` | mutemanager/mutemanager.go:22-25 | A new store has the given file and no entries. |
| `MuteManager.MuteManager.GetMute` | mutemanager/mutemanager.go:37-43 | An entry is muted exactly when it is in the store. The stored value is always `true`. |
| `MuteManager.MuteManager.WriteEntries` | mutemanager/mutemanager.go:93-100 | The buffer is every entry once, each followed by a newline, in some order. |
| `MuteManager.MuteManager.SaveFile` | mutemanager/mutemanager.go:80-118 | The disk and the error are exactly the specified save outcome, with the store's entries as the content. |
| `MuteManager.MuteManager.ReplaceViaTemp` | mutemanager/mutemanager.go:86-117 | The temporary-file steps and the final copy give exactly the specified outcome. |
| `MuteManager.MuteManager.SetMute` | mutemanager/mutemanager.go:45-78 | Asking for the current state returns (false, nil) and changes neither the store nor the disk. Otherwise the target set is saved: success inserts or removes only that entry and returns (true, nil), and failure restores exactly the old set and returns (false, err). Values stay `true`, and a successful save of line-safe entries leaves the file in step with memory. |
| `MuteManager.MuteManager.LoadFile` | mutemanager/mutemanager.go:120-157 | Loading succeeds exactly when the file exists and no step fails, and then the entries are exactly the scanned lines. A missing file gives not-exist, because the recovery save fails at its backup step. On failure the store is unchanged, and the disk is never changed. |
| `MuteManager.MuteManager.ReplaceEntries` | mutemanager/mutemanager.go:148-155 | The clear-then-refill loops leave exactly the new lines, each mapped to `true`. |
| `MuteManager.MuteManager.New` | mutemanager/mutemanager.go:20-35 | A store is returned exactly when there is no error. No working directory, a missing file, and open or scan failures each give their own error. A new store is valid and in step with its file, and the disk is not changed. |
| `TokenManager.TokenList` | tokenmanager/tokenmanager.go:65-72 | The tokens of the records, one per record, in order. |
| `TokenManager.FirstEmpty` | tokenmanager/tokenmanager.go:66-69 | The 1-based position of the first empty token, or none exactly when every token is non-empty. |
| `TokenManager.SameTokensMeaning` | tokenmanager/tokenmanager.go:84-90 | Against a repetition-free current list, the unchanged-set test passes only for a repetition-free list of the same tokens. A list with repetitions always fails it. |
| `TokenManager.SameSetSameTokens` | tokenmanager/tokenmanager.go:84-90 | A repetition-free list of exactly the current tokens passes the unchanged-set test. |
| `TokenManager.TokenManager.constructor` | tokenmanager/tokenmanager.go:26-30 | A new manager has the given file and no tokens. |
| `TokenManager.TokenManager.HasToken` | tokenmanager/tokenmanager.go:47-52 | Exact membership in the current token set. |
| `TokenManager.TokenManager.CollectTokens` | tokenmanager/tokenmanager.go:65-72 | Either all the tokens in order, or the error naming the first empty token by its 1-based number and the file. |
| `TokenManager.TokenManager.CurrentTokens` | tokenmanager/tokenmanager.go:77-82 | Each current token exactly once. |
| `TokenManager.TokenManager.ReloadTokens` | tokenmanager/tokenmanager.go:54-105 | Read and decoding errors, an empty token and an empty list each give their error and leave the set unchanged. A valid list leaves the set equal to its tokens. The map is rebuilt exactly when the list has repetitions or names a different set. A non-empty set stays non-empty. |
| `TokenManager.TokenManager.ClearTokens` | tokenmanager/tokenmanager.go:95-97 | The deletion loop empties the map. |
| `TokenManager.TokenManager.ReplaceTokens` | tokenmanager/tokenmanager.go:95-101 | After the swap, the set is exactly the new records' tokens, each filed under itself, with nothing kept from before. |
| `TokenManager.TokenManager.Run` | tokenmanager/tokenmanager.go:25-45 | Start-up fails exactly when the first load fails. A started manager serves a non-empty set equal to the file's tokens. |
| `CommandHandler.ParseCommand` | command_handler.go:19-23 | The command is a space-free word no longer than the body. |
| `CommandHandler.CommandOfBody` | command_handler.go:19-23 | For a body made of padding, a word, optional space-led arguments and padding, the command is the word lower-cased. |
| `CommandHandler.MessageId` | command_handler.go:25-46 | Every reply key is one of the handler's seven message ids, and never empty. |
| `CommandHandler.ReplyTellsState` | command_handler.go:26-46 | For an admin, the reply says "muted" or "not_changed_muted" exactly when the chat ends up muted without an error. "unmuted" or "not_changed_unmuted" means it ends up unmuted. "error" means the switch was needed and failed. |
| `CommandHandler.FormatString` | command_handler.go:58 | The argument appears at the position of the first `%s`, and the text before that verb is kept. |
| `CommandHandler.AddressReply` | command_handler.go:57-58 | The address notice goes to the chat, carries no options, and contains the chat's id text followed by the group suffix. |
| `CommandHandler.IsAdmin` | command_handler.go:16 | A definition: the sender is an admin of the chat, or the chat is one-to-one. `NonAdminReplies` and `HandleCommand` state what it decides. |
| `CommandHandler.MuteAnswer` | command_handler.go:24-56 | `/mute` and `/unmute` yield at most one notice; `MuteCommandsAnswered` states which. |
| `CommandHandler.AddressAnswer` | command_handler.go:57-63 | The chat-address command yields at most one notice. |
| `CommandHandler.Replies` | command_handler.go:13-66 | A command that is not a user command gets nothing; at most two notices are sent, and only notices whose request builds. |
| `CommandHandler.RepliesToSender` | command_handler.go:13-66 | At most two notices are sent, all to the commanding chat. Each is a table text, or the address notice sent to an admin. |
| `CommandHandler.NonAdminReplies` | command_handler.go:26-27 | A non-admin gets nothing, or only the "not_admin" notice. |
| `CommandHandler.MuteCommandsAnswered` | command_handler.go:24-55 | `/mute` and `/unmute` from a user always get their reply, unless building the notice fails, and the first notice sent is the reply for the sender's rights, the command, the previous state and the save. |
| `CommandHandler.AdminNoticeTellsState` | command_handler.go:24-56 | The notice an admin's `/mute` or `/unmute` sends is a "muted" text exactly when the chat is muted afterwards and no error occurred, an "unmuted" text exactly when it is not, and the error text exactly when the change asked for did not take effect. |
| `CommandHandler.SwitchOutcome` | command_handler.go:29 | After the switch, the chat is muted exactly when it asked for the other state and the save succeeded, or when it was muted before. No other entry changes. |
| `CommandHandler.SwitchMute` | command_handler.go:29-46 | The admin's switch returns the reply that matches the old state and whether the save succeeds, and the store and disk change as specified. |
| `CommandHandler.AnswerMute` | command_handler.go:25-47 | A non-admin gets "not_admin" and the store is never touched. An admin gets the reply key of the switch. |
| `CommandHandler.MuteBranch` | command_handler.go:24-56 | The mute branch sends its answer, stops when building the notice fails, and touches the store only for an admin's `/mute` or `/unmute`. |
| `CommandHandler.AddressBranch` | command_handler.go:57-63 | The address branch sends the address notice if an admin asked for it and the notice builds. |
| `CommandHandler.HandleCommand` | command_handler.go:13-66 | The callback sends exactly the specified replies. Only a user command from an admin that is `/mute` or `/unmute` touches the mute store, and it does so by switching the chat's id text. |
| `MessageTable.TableKeys` | strings.go:6-22 | The table has exactly the fourteen keys, seven per locale. |
| `MessageCoverage.KeysInTable` | strings.go:6-22 | Every message id of the handler has a text in both "ru" and "en". |
| `Localization.GetLocalizedMessage` | strings.go:27-37 | The text is never empty. It is a table text, or the placeholder built from the lower-cased locale and id. |
| `Localization.LookupIgnoresCase` | strings.go:28-29 | The lookup ignores the case of the locale and of the id. |
| `Localization.LookupOrder` | strings.go:30-36 | An exact entry wins, then the "ru" entry, and the placeholder is used only when neither exists. |
| `Localization.CommandMessagesFound` | strings.go:30-35 | Every id the handler uses yields a table text in every locale, never the placeholder. |
| `Localization.EnglishReplies` | strings.go:30-32 | The "en" locale, in any case, gets the English texts. |
| `Sendyxmail.CheckToken` | sendyxmail.go:107-112 | A token passes exactly when the token store holds it; otherwise the refusal is "token not registered in token manager". |
| `Sendyxmail.CheckAllowedSend` | sendyxmail.go:123-129 | An address or chat id is refused exactly when it is muted, with "bot is muted in this chat". |
| `Sendyxmail.Config` | sendyxmail.go:86-92 | The send API runs with both the token check and the mute check configured. |
| `Sendyxmail.TokenAuthentication` | sendyxmail.go:107-112 | A request passes authentication exactly when its extracted token is non-empty and the token store holds it. |
| `Sendyxmail.ShownAddressResolves` | apiv0/apiv0.go:112-133 | The address the bot shows resolves, in the pipeline, to that same chat. Past the first gate it is delivered there, with no user lookup and no chat creation. |
| `Sendyxmail.MutedChatRefused` | sendyxmail.go:123-129 | Once a chat's id text is muted, sends to its shown address get 451 "bot is muted in this chat" and nothing is dispatched. |
| `Sendyxmail.MutedUserChatRefused` | apiv0/apiv0.go:113-143 | A user's address that is not muted itself, but whose chat with the bot is muted, gets 451 "bot is muted in this chat" at the second gate, and nothing is dispatched. |
| `Sendyxmail.MuteCommandStopsSends` | command_handler.go:29 | After an admin's `/mute` that took effect or found the chat muted, the chat is muted under the very key the second gate checks, so sends to it get 451. |
| `Sendyxmail.OpenMuteStore` | sendyxmail.go:42-53 | Start-up opens the store. If the file is missing, start-up creates it empty and opens it again, and that second opening succeeds exactly when the creation and the reopening succeed, with no entries. Any other failure stops start-up. |

## Left out

- Encrypted metadata (apiv0/metadata.go) is left out: AES-GCM sealing, the SHA-256 key, the random nonce, the Adler-32 checksum and base64 all happen behind library calls. The sealed blob is an opaque string input, attached as the last option.
- JSON body parsing, `net/mail.ParseAddress` and YAML decoding are inputs. The body is an `Option<Message>`, the address parser is a function parameter, and the token file is a `Source` value.
- The platform client is uninterpreted: `FindUsersByMails`, `CreateChatWithUser`, `SendMessageAsync/Sync` and `NewNDRequest` are function parameters. The button-option constructors are datatype constructors. The command handler ignores `SendMessageAsync`'s result, as the source does.
- Fiber's context plumbing (`Locals`, `Next`) is left out, and so is the JSON encoding of a reply: a reply is a status code and the result text. An error a handler returns is an outcome `Fault(text)`. A panic is `Fault` with the Go runtime's nil-dereference text, which the recover middleware turns into a 500.
- Locks (`sync.RWMutex`) are left out, because the model is sequential. `SetMute`'s second check under the write lock therefore coincides with the first and appears once.
- Timers and goroutines are left out. `Run`'s background reload is a later call to `ReloadTokens`; `ReloadTokens` keeps `Serving()`, so the set stays non-empty.
- Real file I/O is a `Disk` map from path to content. Each failing step (open, create, copy, sync, flush, close, scan) is chosen by a fault parameter, and at most one step fails per operation. A failed `io.Copy` carries the number of characters it wrote before failing; Go counts bytes, so on text with multi-byte characters the model's prefixes are only those that end at a character boundary. A failed buffered write is modelled at the flush; Go reports it from `WriteString` once the 4096-byte buffer fills, which ends the save at the same point, before the copy.
- `MuteManager.AbsPath` does not clean the path (`filepath.Abs` also applies `Clean`), and the working directory is a parameter.
- `MuteManager.MuteManager.SaveFile` models `os.CreateTemp`'s random name as a caller-given tag. An existing name counts as a creation failure; the library's retry with another name is not modelled.
- `MuteManager.MuteManager.LoadFile` cannot reach the reopen after a successful recovery save. The recovery save always fails on a missing file, because its backup step opens that file, so the reopen is left out.
- `bufio.Scanner`'s 64 KiB line limit is modelled as the `ScanFails` fault, not as a length bound.
- The order in which Go iterates a map is not modelled. The mute file's lines are written in some order that enumerates the set (the ghost `written` sequence), and the current tokens are collected in some order.
- `Text.ToLower` lower-cases ASCII letters only; Go's `strings.ToLower` also maps other Unicode letters. `Text.TrimSpace` uses the white-space characters of Go's `unicode.IsSpace`.
- `Uuid.Parse` models the 36-, 45- (`urn:uuid:`), 38- (braced) and 32-byte forms of `uuid.Parse`, switching on the UTF-8 length as the library does. An invalid URN prefix is reported with plain double quotes, without Go's `%q` escaping, and for text with a multi-byte character it carries the first nine characters where the library quotes the first nine bytes. On an error it returns the nil UUID. The library does so for length errors, but after a bad hex digit it returns the bytes decoded so far; the handler as written delivers to that value, which the model replaces by the nil UUID.
- `ApiV0.ResolveChat` writes the address in the 422 text as `<address>`; Go's `%s` of a `*mail.Address` also prints the display name, when there is one, in quoted form.
- `CommandHandler.FormatString` models `fmt.Sprintf` with a single string argument: the first `%s` is replaced, and without one the `%!(EXTRA string=…)` suffix is appended. Other verbs and escapes are copied unchanged.
- `commandChatAddr` is not defined in the files modelled; its body is the parameter `chatAddrCommand`. commands.go is not part of this model; the literals "/mute" and "/unmute" stand for its constants.
- Logging (`log.Printf`), environment variables, server start-up and signal handling in sendyxmail.go are left out. status_handler.go is not part of this model.

## Findings

| source | as written | input that shows it | evidently intended | confidence | as-written member | corrected member |
|---|---|---|---|---|---|---|
| apiv0/apiv0.go:133-135 | The 422 for a group chat id that is not canonical UUID text is sent without `return`. The handler goes on with whatever `uuid.Parse` produced. A rejected prefix leaves the nil UUID and is delivered to it; the later reply overwrites the 422. A prefix the parser accepts (such as the 32-digit or the braced form) has a nil `err`, and `err.Error()` panics. | `not-a-uuid@chat-id.internal` (delivered to chat 00000000-0000-0000-0000-000000000000 with 202 "OK"); `0123456789abcdef0123456789abcdef@chat-id.internal` and `{01234567-89ab-cdef-0123-456789abcdef}@chat-id.internal` (panic, 500) | Answer 422 and stop. A `return` alone still leaves `err.Error()` on a nil error for the accepted forms, so the message also needs a reason of its own when `err` is nil; the corrected member uses "not in canonical form". | high (not executed) | `ApiV0.NotAUuidReachesNilChat` | `ApiV0.GroupAddressDelivery` |
