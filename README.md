# IveBot command core in Dafny

A model of the command core of IveBot, a Discord bot written in TypeScript on
the Eris gateway library, with proofs about it. The model covers three parts of the bot:

- **The command dispatcher** (`server/bot/client.ts`):
  - the `Command` record and the defaults its constructor fills in;
  - `requirementsCheck`, an OR of the user-ID allow-list, the custom predicate and
    the permission test that `isEquivalent` and `Object.assign` perform;
  - `execute`;
  - `CommandParser`: `registerCommand`, the `executeCommand` pipeline and the prefix,
    lookup and failure boundary of `onMessage`.
- **The text games** (`server/bot/commands/games.ts`): `reverse`, `zalgo` and
  `dezalgo` over the table of combining characters, the `repeat` spam guard,
  `choose`, `8ball`, and the input rewrite of `calculate`.
- **The stateful utilities** (`server/bot/commands/utilities.ts`):
  - `leave`, with its confirmation list and its 30-second timer;
  - `say` and `type`, with the last-message map their post-generators keep;
  - the typing delay and the `avatar` link.

Each imperative piece of the source is a method proved equal to a specification function:

- `isEquivalent`'s loop;
- the `registerCommand` map write and the `onMessage` key loop;
- `executeCommand`'s sequence of checks;
- the `zalgo`, `dezalgo` and `repeat` accumulation loops;
- the `tempDB` writes of `leave`, `say` and `type`.

The properties are proved about the specification functions. Gateway calls
(sending, deleting, kicking, typing) appear in traces of effects; whether an
awaited call fails is a parameter. `Math.random()` draws are parameters in
[0, 1).

Files: `wrappers.dfy` (result and option types), `js_text.dfy` (JavaScript
string operations), `js_object.dfy` (permission objects, `Object.assign`,
`isEquivalent`), `messages.dfy` (Eris message records), `commands.dfy`,
`dispatcher.dfy`, `games.dfy`, `utilities.dfy`, `command_table.dfy` (the
options some commands are registered with, and their effect on dispatch).

Some behaviours of the code are easy to misread, and the model follows the code in each of them:

- `registerCommand` overwrites a command registered under the same name (server/bot/client.ts:124).
- The command token is lower-cased, but it is compared with each key exactly as written
  (server/bot/client.ts:168, 174). A name containing a capital is therefore reached only through an alias.
- Each key is tested for its name or for one of its aliases, in key order (server/bot/client.ts:173-184).
  An earlier command's alias beats a later command's own name.
- A message whose first token is not an invocation goes to the fallback even when a bot sent it.
  The bot check comes after the prefix check (server/bot/client.ts:164-170).
- A post-generator that throws skips the delete request (server/bot/client.ts:157-160).

## Model

| member | source | states |
|---|---|---|
| JsText.IndexOf | server/bot/client.ts:164 | the first position where the separator occurs, or none exactly when it does not occur |
| JsText.SplitOn | server/bot/client.ts:132 | `split` always yields at least one piece |
| JsText.JoinSplit | server/bot/commands/utilities.ts:135 | joining the pieces of a split with the same separator gives back the string |
| JsText.SplitPiecesFree | server/bot/commands/games.ts:37 | no piece of a split contains the separator |
| JsText.SplitSingleIff | server/bot/commands/games.ts:36 | a split has one piece exactly when the separator does not occur |
| JsText.SplitFree | server/bot/commands/games.ts:36 | a string free of the separator splits into itself alone |
| JsText.ContainsChar | server/bot/commands/games.ts:36 | a one-character separator occurs exactly when the character is in the string |
| JsText.MapChar | server/bot/commands/games.ts:174 | a character map keeps the length |
| JsText.ReplaceCharIsMap | server/bot/commands/games.ts:174 | `split(a).join(b)` for single characters replaces every `a` by `b` in place |
| JsText.JoinLength | server/bot/commands/utilities.ts:135 | the length of a join is the pieces' lengths plus one separator between each two |
| JsText.RemoveAllLength | server/bot/commands/utilities.ts:135 | removing every occurrence shortens the string by the separator's length per occurrence |
| JsText.ReplaceAbsent | server/bot/commands/utilities.ts:135 | replacing an absent separator changes nothing |
| JsText.Substring | server/bot/commands/games.ts:124 | `substring(start)` has the remaining length, or is empty past the end |
| JsText.LowerChar | server/bot/client.ts:168 | lower-casing maps A–Z 32 code points up and keeps every other character |
| JsText.ToLower | server/bot/client.ts:168 | `toLowerCase` keeps the length and lower-cases each character |
| JsText.ToLowerNormal | server/bot/client.ts:168 | a lower-cased token has no upper-case letter, and lower-casing is idempotent |
| JsText.LowerNeverMatchesUpper | server/bot/client.ts:168-174 | no lower-cased token equals a key that holds an upper-case letter |
| JsObject.Names | server/bot/client.ts:9-10 | `getOwnPropertyNames` lists one name per property |
| JsObject.Lookup | server/bot/client.ts:19 | a property reads as defined exactly when the object has it |
| JsObject.LookupAt | server/bot/client.ts:16-19 | in a well-formed object each listed property reads back its own value |
| JsObject.Put | server/bot/client.ts:90-92 | one `Object.assign` write: the key reads the new value, every other key reads as before; an equal value changes nothing; well-formedness is kept |
| JsObject.PutKeepsHead | server/bot/client.ts:90-92 | helper for `Put`: a write to another key keeps the first property's name unique |
| JsObject.Assign | server/bot/client.ts:90-92 | `Object.assign` keeps a well-formed target well-formed; the result has exactly the names of the target and of the source |
| JsObject.AssignLookup | server/bot/client.ts:90-92 | after `Object.assign(t, s)` a key reads its value in `s` if `s` has it, otherwise its value in `t` |
| JsObject.AssignCovered | server/bot/client.ts:90-92 | assigning properties that already hold the same values leaves the object as it is |
| JsObject.IsEquivalent | server/bot/client.ts:7-24 | the loop answers exactly the equivalence predicate: equal property counts and equal values for each name of `a` |
| JsObject.NameSetSize | server/bot/client.ts:9-13 | a well-formed object has as many distinct names as properties |
| JsObject.EquivalentIsSameObject | server/bot/client.ts:7-24 | equivalence of well-formed objects holds exactly when both have the same names with the same values |
| JsObject.EquivalentSame | server/bot/client.ts:7-24 | equivalent well-formed objects agree on every name |
| JsObject.SameEquivalent | server/bot/client.ts:7-24 | well-formed objects that agree on every name are equivalent |
| JsObject.SubsetSize | server/bot/client.ts:13 | helper for the property-count comparison: a subset is no larger than its superset |
| JsObject.PermissionMatch | server/bot/client.ts:89-92 | `isEquivalent(Object.assign(granted, required), granted)` holds exactly when every required permission is granted with the required value |
| Commands.MakeCommand | server/bot/client.ts:53-78 | the constructor copies name, aliases, generators and requirements; arguments are required unless set to false; an empty or missing usage or error text falls back to the defaults; missing flags are false |
| Commands.RequirementsCheck | server/bot/client.ts:80-96 | no requirements object passes; the check throws exactly when an allow-list needs a missing author, the custom predicate throws, or guild permissions need a missing member |
| Commands.CustomThrowPropagates | server/bot/client.ts:83-88 | the custom predicate is called even when the allow-list passed and outside guilds, so its throwing makes the check throw |
| Commands.Execute | server/bot/client.ts:98-107 | a static generator's value is handed back unchanged and never throws; a function generator is called with the message and the arguments |
| Commands.NoRequirementsPass | server/bot/client.ts:81 | without a requirements object every message passes |
| Commands.OutsideGuildVerdict | server/bot/client.ts:83-88 | when the custom predicate does not throw, the verdict outside a guild text channel is allow-list membership or the custom check |
| Commands.PermissionsOnlyDeniedOutsideGuild | server/bot/client.ts:83-88 | a permissions-only command is denied in every non-guild channel |
| Commands.GuildVerdict | server/bot/client.ts:83-95 | when the custom predicate does not throw, the verdict in a guild channel is allow-list OR custom OR every required permission held |
| Commands.MissingMemberThrows | server/bot/client.ts:89-92 | required permissions in a guild channel and no member record make the check throw |
| Dispatcher.Tokens | server/bot/client.ts:132 | the content always has a first token |
| Dispatcher.Denial | server/bot/client.ts:143-145 | the denial text is the fixed wording, then the insult at its own position, then `.**` |
| Dispatcher.Pipeline | server/bot/client.ts:127-161 | `executeCommand`: the trace never holds the fallback; a run that stops before the generator sends at most one message and does nothing else; a throw comes only after the usage and context checks |
| Dispatcher.AfterGenerator | server/bot/client.ts:149-160 | after the generator: the trace starts with its run; deletion is requested exactly when `deleteCommand` is set and nothing threw |
| Dispatcher.AfterSend | server/bot/client.ts:157-160 | the post-generator and delete stages only append, at most two effects, and the delete is among them exactly when `deleteCommand` is set and the post-generator did not throw |
| Dispatcher.Guarded | server/bot/client.ts:176-181 | the `try`/`catch` around `executeCommand` keeps the pipeline's trace as its prefix and adds at most one effect |
| Dispatcher.CommandToken | server/bot/client.ts:168 | the token is the first word without its `/`, with no capital left |
| Dispatcher.Dispatch | server/bot/client.ts:163-197 | `onMessage`: when the fallback is reached, it is the only effect |
| Dispatcher.ResolveFrom | server/bot/client.ts:172-195 | the key walk finds the least index from `from` on whose name equals the token or whose aliases include it, or none when no key matches |
| Dispatcher.CommandParser.constructor | server/bot/client.ts:115-121 | a new parser has no commands |
| Dispatcher.CommandParser.RegisterCommand | server/bot/client.ts:123-125 | the command is stored under its name, replacing an earlier one and leaving the rest; a new name is appended to the key order, a reused one keeps its place |
| Dispatcher.CommandParser.ExecuteCommand | server/bot/client.ts:127-161 | the step-by-step pipeline produces exactly the trace of the pipeline function |
| Dispatcher.CommandParser.Respond | server/bot/client.ts:149-156 | the send gate and the awaited send, step by step, equal `AfterGenerator` |
| Dispatcher.CommandParser.Finish | server/bot/client.ts:157-160 | the post-generator call and the delete request, step by step, equal `AfterSend` |
| Dispatcher.CommandParser.OnMessage | server/bot/client.ts:163-197 | the loop over the keys produces exactly the dispatch trace |
| DispatcherProperties.StaticResponseSent | server/bot/client.ts:98-107 | once the checks pass, a non-empty static reply is sent right after the run, whatever the message and arguments |
| DispatcherProperties.ArgumentCheckFirst | server/bot/client.ts:132-137 | no argument token with arguments required: only the usage text is sent, nothing else runs |
| DispatcherProperties.ContextCheckSilent | server/bot/client.ts:139-140 | a guild-only or DM-only mismatch ends the run with no message |
| DispatcherProperties.DenialShortCircuit | server/bot/client.ts:142-147 | a failed requirement sends one denial and the generator never runs |
| DispatcherProperties.GeneratorRunsOnlyWhenAllowed | server/bot/client.ts:132-149 | the generator runs exactly when the three checks pass |
| DispatcherProperties.PipelineAfterGenerator | server/bot/client.ts:132-149 | once the three checks pass and the generator returned, the run is the after-generator stage |
| DispatcherProperties.AfterGeneratorEffects | server/bot/client.ts:149-160 | the after-generator stage sends only through the send gate, hands the post-generator the sent message or nothing, and deletes only when asked and nothing threw, as the last effect |
| DispatcherProperties.AfterGeneratorBehaviour | server/bot/client.ts:149-160 | the result is sent only if truthy, with a member and the send permission; a post-generator receives the sent message or nothing; the delete is requested only with `deleteCommand` and comes last |
| DispatcherProperties.PipelineOrder | server/bot/client.ts:127-161 | every run keeps the stage order generator, send, post-generator, delete, and never reaches the fallback |
| DispatcherProperties.AfterGeneratorOrder | server/bot/client.ts:149-160 | after the generator the trace starts with its run and keeps the stage order |
| DispatcherProperties.StagesInOrder | server/bot/client.ts:152-160 | helper for `AfterGeneratorOrder`: at most one send, one post-generator call and one delete, in that order, keep the stage order |
| DispatcherProperties.AppendInOrder | server/bot/client.ts:152-160 | helper for `StagesInOrder`: an effect of a later stage appended to an ordered trace keeps it ordered |
| DispatcherProperties.OrderedOnce | server/bot/client.ts:127-161 | in a run in stage order no effect happens twice |
| DispatcherProperties.DeleteFailureSwallowed | server/bot/client.ts:158-160 | a failing delete changes nothing about the run; the model builds this in, because `Pipeline` never reads whether the delete fails |
| DispatcherProperties.FailureBoundary | server/bot/client.ts:176-181 | a throw adds exactly one error text at the end of the trace; a run that does not throw is unchanged |
| DispatcherProperties.CustomThrowIsError | server/bot/client.ts:174-181 | a custom predicate that throws runs nothing; the only effect is the command's error message |
| DispatcherProperties.LackingPermissionDenied | server/bot/client.ts:89-95 | a guild member lacking a required permission gets one denial and nothing runs |
| DispatcherProperties.ResolveIsFirstMatch | server/bot/client.ts:172-194 | the resolved index is a match with no match before it, and vice versa |
| DispatcherProperties.NonInvocationToFallback | server/bot/client.ts:164-167 | a first token without `/` goes to the fallback, whoever sent it |
| DispatcherProperties.BotInvocationIgnored | server/bot/client.ts:170 | an invocation by a bot, or without an author, does nothing |
| DispatcherProperties.FirstMatchRuns | server/bot/client.ts:173-194 | the first matching command runs once inside the failure boundary, and the fallback is not reached |
| DispatcherProperties.UnknownTokenToFallback | server/bot/client.ts:196 | an invocation no key matches goes to the fallback once |
| DispatcherProperties.FallbackAlone | server/bot/client.ts:163-197 | the fallback never goes together with a command run |
| DispatcherProperties.UpperCaseNameOnlyByAlias | server/bot/client.ts:168-184 | a command whose name holds a capital is reached only through an alias |
| DispatcherProperties.EditLastSayUnreachableByName | server/bot/commands/utilities.ts:248-251 | `/editLastSay` never reaches the command named `editLastSay` |
| Games.Pick | server/bot/commands/games.ts:38 | `Math.floor(Math.random() * n)` is an index below `n` |
| Games.Reverse | server/bot/commands/games.ts:50 | the reversal keeps the length and puts character `i` at position `n - 1 - i` |
| Games.ReverseInvolution | server/bot/commands/games.ts:50 | reversing twice gives the text back |
| Games.Zalgo | server/bot/commands/games.ts:83-93 | each character is followed by one to five table characters, fresh random draws bounding the inner loop; the output is two to six times as long and strips to the stripped input |
| Games.Decorate | server/bot/commands/games.ts:86-91 | the decorated text is at least as long as the text and starts with its first character |
| Games.AddMarks | server/bot/commands/games.ts:88-90 | the inner loop adds between one and five characters, all from the table |
| Games.Dezalgo | server/bot/commands/games.ts:104-111 | the loop keeps exactly the characters outside the table, in order |
| Games.Strip | server/bot/commands/games.ts:107-109 | the stripped text is never longer than the text |
| Games.StripConcat | server/bot/commands/games.ts:107-109 | stripping distributes over concatenation |
| Games.StripOne | server/bot/commands/games.ts:108 | a single character is kept exactly when it is outside the table |
| Games.StripIsClean | server/bot/commands/games.ts:104-111 | the output of `dezalgo` holds no table character |
| Games.StripKeepsClean | server/bot/commands/games.ts:104-111 | text without table characters passes unchanged |
| Games.StripIdempotent | server/bot/commands/games.ts:104-111 | `dezalgo` is idempotent |
| Games.StripKeepsOthers | server/bot/commands/games.ts:108 | every character outside the table is kept as often as it occurs |
| Games.StripOfMarks | server/bot/commands/games.ts:108 | a group of table characters vanishes |
| Games.StripDecorateStep | server/bot/commands/games.ts:86-91 | stripping one decorated character leaves what stripping the character alone leaves |
| Games.DezalgoUndoesZalgo | server/bot/commands/games.ts:86-111 | `dezalgo(zalgo(s))` equals `dezalgo(s)` |
| Games.ZalgoRoundTrip | server/bot/commands/games.ts:86-111 | `dezalgo(zalgo(s)) == s` when `s` has no table character |
| Games.DecorateLength | server/bot/commands/games.ts:86-91 | with one to five marks per character the output is two to six times as long |
| Games.RepeatedLength | server/bot/commands/games.ts:130-133 | a text written `n` times is `n` times as long |
| Games.ToNumber | server/bot/commands/games.ts:124 | `+s` is NaN exactly when some character is not a decimal digit; `+""` is 0 |
| Games.RepeatReply | server/bot/commands/games.ts:122-135 | the `repeat` reply as written throws exactly when there are fewer than two arguments |
| Games.Repeat | server/bot/commands/games.ts:122-135 | the loop computes exactly the as-written reply |
| Games.RepeatOutcomes | server/bot/commands/games.ts:124-134 | spam refusal at count × length ≥ 2001; otherwise lag refusal for `_`, `*`, `~`; otherwise the text repeated, shorter than 2001 characters |
| Games.RepeatReadsWrongArgument | server/bot/commands/games.ts:124-133 | as written, `/repeat 3 hi` replies with the empty text |
| Games.RepeatReplyFixed | server/bot/commands/games.ts:119-135 | the corrected reply throws exactly when there is no argument |
| Games.RepeatFixedRepeatsText | server/bot/commands/games.ts:119-135 | with the count read from the first argument, `/repeat <n> <text>` repeats the text `n` times, or refuses at 2001 characters |
| Games.RepeatFixedOnExample | server/bot/commands/games.ts:119-135 | the corrected `/repeat 3 hi` replies `hihihi` |
| Games.Choose | server/bot/commands/games.ts:34-39 | the reply is the usage text or `I choose: ` with one of the `|`-pieces of the description |
| Games.ChooseOutcome | server/bot/commands/games.ts:34-39 | the usage text exactly when the content has no `|`; otherwise one `|`-free piece of the description |
| Games.EightBall | server/bot/commands/games.ts:61-72 | the answer is the fixed preamble and one of the eleven responses |
| Games.PickExact | server/bot/commands/games.ts:71 | the draw `k / n` picks index `k` |
| Games.EightBallReachesEveryResponse | server/bot/commands/games.ts:63-71 | every response is the answer for some draw |
| Games.CalculateInput | server/bot/commands/games.ts:174 | the rewritten expression is as long as the joined arguments |
| Games.CalculateInputRewrites | server/bot/commands/games.ts:174 | the expression is the joined arguments with every `,` turned into `.` and every `÷` into `/`, all else in place |
| Games.CalculateInputClean | server/bot/commands/games.ts:174 | the expression holds neither `,` nor `÷` |
| Games.Calculate | server/bot/commands/games.ts:172-178 | the evaluator's value after `:3 result: `, or `Invalid expression >_<` when it throws |
| Utilities.FindIndex | server/bot/commands/utilities.ts:159 | `findIndex` is the first position of the ID, or -1 exactly when it is absent |
| Utilities.SpliceOne | server/bot/commands/utilities.ts:161 | `splice(i, 1)` at a valid index removes exactly that entry |
| Utilities.SpliceAtMissingDropsLast | server/bot/commands/utilities.ts:159-164 | splicing at -1 would drop the last entry, which the guards prevent |
| Utilities.RemoveFirst | server/bot/commands/utilities.ts:164 | `splice(findIndex(...), 1)` on a non-empty list always removes one entry; when the ID is listed, it removes its first occurrence |
| Utilities.RemoveFirstExact | server/bot/commands/utilities.ts:161-164 | removing a listed ID from a list without duplicates removes that entry only |
| Utilities.PushKeepsDistinct | server/bot/commands/utilities.ts:151-157 | appending an unlisted ID keeps the list free of duplicates |
| Utilities.AfterLeave | server/bot/commands/utilities.ts:151-164 | an unlisted author is appended; on a list without duplicates the result has none, and holds the author exactly when it did not before |
| Utilities.AfterTimeout | server/bot/commands/utilities.ts:158-162 | a list without the author is unchanged; on a list without duplicates the author is gone and no duplicate appears |
| Utilities.LeaveStepsKeepDistinct | server/bot/commands/utilities.ts:151-164 | `/leave` and the timer keep the list free of duplicates |
| Utilities.ConfirmThenTimeoutIsSilent | server/bot/commands/utilities.ts:151-164 | after asking and confirming, the timer finds nothing and changes nothing |
| Utilities.TimeoutThenLeaveAsksAgain | server/bot/commands/utilities.ts:151-164 | once the timer removed the entry, the next `/leave` asks again instead of kicking |
| Utilities.OthersUntouched | server/bot/commands/utilities.ts:151-164 | neither step adds or removes another author's entry |
| Utilities.Head | server/bot/commands/utilities.ts:48 | `channelMentions[0]` is the first mention, or undefined when there is none |
| Utilities.Sanitize | server/bot/commands/utilities.ts:50 | the joined arguments are never `pls adim me`, and any other arguments are kept |
| Utilities.SanitizeText | server/bot/commands/utilities.ts:50-57 | the text sent (here and at lines 80 and 91 of `type`) is never `pls adim me`; that text becomes `no`, any other is kept |
| Utilities.TypingDelay | server/bot/commands/utilities.ts:82-84 | the delay is min(length × 120, 8000) |
| Utilities.TypingDelayCap | server/bot/commands/utilities.ts:93-95 | proportional up to 66 characters, capped from 67 on |
| Utilities.RecordSay | server/bot/commands/utilities.ts:43 | the sent message's id is recorded for its channel, every other channel keeps its entry, nothing changes without a sent message |
| Utilities.AvatarUser | server/bot/commands/utilities.ts:133-134 | the first mention if there is one, otherwise the author |
| Utilities.AvatarLink | server/bot/commands/utilities.ts:135 | the reply starts with `Link: ` and ends with `2048` |
| Utilities.AvatarLinkShape | server/bot/commands/utilities.ts:135 | the link is `Link: `, the URL with every `128` the split finds cut out, and `2048` |
| Utilities.AvatarLinkWithoutSize | server/bot/commands/utilities.ts:135 | a URL without `128` is only wrapped |
| Utilities.TempDB.constructor | server/bot/commands/utilities.ts:151 | the store starts with no pending leave and no recorded say |
| Utilities.TempDB.Leave | server/bot/commands/utilities.ts:150-172 | an unlisted author gets the prompt and the 30-second timer and is appended; a listed one is removed and kicked with the "has left" reply, or gets the manual-leave text without a member; the list stays free of duplicates |
| Utilities.TempDB.LeaveTimerFires | server/bot/commands/utilities.ts:158-162 | nothing when the author is no longer listed; otherwise the timed-out text and the author removed |
| Utilities.TempDB.SayOrType | server/bot/commands/utilities.ts:45-97 | for both `say` and `type` generators; cross-channel: the mention dropped, the sanitized rest posted there, its id recorded, nothing returned, and a throw when there is no target or the post fails; same channel: the sanitized text returned; `type` types and waits the typing delay first |
| Utilities.TempDB.SayPost | server/bot/commands/utilities.ts:42-44 | the sent message recorded for its channel, only when there is one (the `type` hook at lines 72-74 is the same) |
| CommandTable.LeaveDefinition | server/bot/commands/utilities.ts:139-149 | `leave` becomes a guild-only command without required arguments or requirements, with its own error text |
| CommandTable.LeaveSilentOutsideGuild | server/bot/commands/utilities.ts:146-147 | outside a guild text channel `/leave` sends nothing and runs nothing |
| CommandTable.LeaveErrorText | server/bot/commands/utilities.ts:145 | a throwing `leave` generator sends its own error text |
| CommandTable.SayDefinition | server/bot/commands/utilities.ts:32-41 | `say` and `type` delete the trigger, keep their post-generator, and require the allow-list or `manageMessages` |
| CommandTable.CrossChannelSayLeavesNothingToSend | server/bot/commands/utilities.ts:47-54 | a `say` generator returning nothing leaves the dispatcher nothing to send, hands the post-generator nothing, and still deletes the trigger |
| CommandTable.RepeatDefinition | server/bot/commands/games.ts:114-121 | `repeat` requires arguments and has no alias, no requirements, no post-generator and the default error text |
| CommandTable.RepeatOneArgumentErrors | server/bot/commands/games.ts:124 | `/repeat <n>` with one argument throws and the default error text is sent |
| CommandTable.RepeatAsWrittenSendsNothing | server/bot/commands/games.ts:124-134 | as written, arguments `3 hi` produce no message at all |

## Left out

- Gateway I/O: the Eris calls (`createMessage`, `delete`, `kickGuildMember`, `sendTyping`, the channel-permission lookup) appear as effects or as parameters such as "the bot may send here". Their timing and network behaviour are not modelled. The `console.error(e)` logging in the failure boundary (server/bot/client.ts:180 and :191) is not in the trace either; only the error message sent to the channel is.
- Unawaited promises: a delete request, and the `leave` kick, are not awaited by the source, so their rejections reach neither the `try`/`catch` nor the trace. The model reports the kick as requested, with the "has left" reply.
- `setTimeout` timing: the `leave` timer is a separate method called when it fires. The model does not say when it fires, and the `type` delay is a `Wait` action.
- Helpers from files outside this model: `getIdFromMention`, `getDesc` and `getInsult` are parameters. These are the channel named by the first argument, the description text, and the insult.
- The conversational fallback `botCallback` is an effect.
- `Math.random` is a parameter. Each draw lies in [0, 1).
- Object aliasing: `Object.assign` writes into the member's permission object. The model reads it as an immutable snapshot, as the inline comment intends.
- Foreign libraries are not modelled: `mathjs` evaluation (a parameter of `Calculate`), `ms` and `moment`.
- Commands.ByCustom: the custom predicate returns a boolean or throws here. In JavaScript it may return any value, and `requirementsCheck` then returns that value itself, which the caller reads by truthiness; the model keeps only the truthiness.
- Commands and files not listed above are not part of this model. This covers `random`, `request`, `remindme`, the server-region commands, `edit`, `editLastSay`, and the files `api.ts`, `roles.ts` and `warn.ts`. The only exception is the lookup fact about `editLastSay`'s name.
- Help texts (`description`, `usage`, `example`, `hidden`) are not modelled. The `caseInsensitive` flag is stored with its default by the constructor and read nowhere.
- Concurrency: interleaved invocations are not modelled. The two `leave` events (confirmation and timer) are modelled as sequential steps.
- Games.ToNumber: JavaScript's `+s` is modelled for the empty string and decimal digit strings only. Every other string is NaN here. The real `+s` also accepts signs, decimals, exponents, hex, and surrounding whitespace. A negative count behaves like NaN in `repeat` either way; a fractional count does not. The model also has no Infinity: in JavaScript `+"Infinity"` and every digit string too large for a double (309 digits or more) are Infinity, where the model gives NaN or an exact finite count.
- Games.RepeatOutcomes: because the model has no Infinity, it does not capture `repeat` never returning. With an infinite count and an empty text (say `/repeat  Infinity` as written, or `/repeat Infinity` in the corrected reading of `Games.RepeatReplyFixed`), Infinity × 0 is NaN, the spam guard lets the command through, and the loop at server/bot/commands/games.ts:131 never ends, so the bot hangs on that message. A finite count above 2^53 with an empty text hangs the same way, since `x++` stops growing there. The model returns an empty reply for these inputs, which `Games.RepeatReply`, `Games.RepeatReplyFixed` and `Games.RepeatOutcomes` describe.
- Games.Reverse: JavaScript strings are UTF-16 code units and Dafny strings are characters. The two can differ for characters outside the Basic Multilingual Plane, such as the 8-ball emoji.
- JsText.LowerChar, JsText.ToLower, JsText.ToLowerNormal: only the ASCII letters A–Z are lower-cased. JavaScript's `toLowerCase` also maps other letters, such as `À` to `à` and the Kelvin sign U+212A to `k`, so a non-ASCII token can match a command name in JavaScript that it does not match here.
- JsText.Substring: JavaScript's `substring` counts UTF-16 code units, and the model counts characters. The two differ for a text holding characters outside the Basic Multilingual Plane.
- Games.Zalgo: `split('')` yields UTF-16 code units, so JavaScript adds marks between the two halves of a surrogate pair. The model decorates whole characters, so it gives one group of marks after such a character instead of two.
- Games.RepeatReply: the text offset `8 + args[1].length + 1` and the spam guard's `.length` count UTF-16 code units in JavaScript and characters here. The two differ for texts holding characters outside the Basic Multilingual Plane.
- Utilities.TypingDelay: `args.join(' ').length` counts UTF-16 code units, so a character outside the Basic Multilingual Plane adds 240 milliseconds in JavaScript and 120 here.
- Object key order: `Object.keys` lists integer-like keys first. The model keeps plain insertion order.
- Utilities.TempDB.SayOrType: `args.shift()` changes the array the post-generator later receives. The model does not pass the shortened arguments on, because the post-generator does not read them.
- The store is not threaded through the dispatcher: the generators of `leave` and `say` stay parameters of the pipeline. Their effect on the store is proved on the `TempDB` methods.
- Aliases declared inside `opts` (as in `games.ts`) are not read by the `Command` constructor. `CommandTable.RepeatDefinition` therefore has no alias.

## Findings

| source | as written | input that shows it | evidently intended | confidence | as-written member | corrected member |
|---|---|---|---|---|---|---|
| server/bot/commands/games.ts:124-133 | the count and the text offset are read from `args[1]`, but the dispatcher already removed the command token, so `args[1]` is the first word of the text | `/repeat 3 hi`: the count `+"hi"` is NaN, so the loop never runs and the empty reply is not sent; `/repeat 3` throws | count from `args[0]`, as the usage `/repeat <number of times> <string to repeat>` says, giving `hihihi` | medium, not executed (the adapter that registers `games.ts` commands is not part of this model) | Games.RepeatReadsWrongArgument | Games.RepeatFixedRepeatsText |
