# A verified model of the Discord bot's core components

This project models the parts of a TypeScript Discord bot that have
behaviour worth stating precisely, and proves properties about them in
Dafny:

- **The logging module.**
  - The four severities.
  - The `Logger`. It filters records by a minimum level, builds the record, and fans it out to an ordered list of transports. It also extracts the caller's file path from a V8 stack trace.
  - The console transport. It prints coloured, pipe-separated lines using ANSI Select Graphic Rendition sequences, as in section 8.3.117 of ECMA-48.
  - The file transport. It writes a run directory derived from the start time, one JSON line per record in `app.log`, and the ERROR records also in `error.log`.
- **The persistence mappers.** They convert between database rows and the user, activity and punishment entities. A user's children are re-linked to it.
- **Validators and option shaping.**
  - The configuration service's environment validation.
  - The embed factory's templates and base embed.
- **Registry and selection rules.**
  - The chat service's purge selection.
  - The command handler's file filter and name-keyed command table.
  - The service handler's DI names, its register-then-initialize loops and its shutdown loop.

Each source component is one module:

| module | file | component |
|---|---|---|
| `Common` | `common.dfy` | `Option` and `Result` |
| `Strings` | `strings.dfy` | the JavaScript string operations the code uses (`split`, `join`, `trim`, `padEnd`, `replace` of the first occurrence, `startsWith`/`endsWith`, `charAt(0).toLowerCase()`) |
| `LogInterfaces` | `log_interfaces.dfy` | the severities, `LogData`, transports and logger options |
| `Logging` | `logger.dfy` | the `Logger` class and `getCallerFilePath` |
| `JsonText` | `json_text.dfy` | `JSON.stringify` of a record (section 7 of RFC 8259 for strings) and a parser used to state the round trip |
| `ConsoleOutput` | `console_transport.dfy` | the console transport |
| `FileLog` | `file_transport.dfy` | the file transport |
| `DomainEntities` | `entities.dfy` | the three entity classes |
| `PersistenceMappers` | `mappers.dfy` | the three mappers |
| `Configuration` | `config.dfy` | the configuration service |
| `Embeds` | `embeds.dfy` | the embed factory |
| `Chat` | `chat.dfy` | `ChatService.purgeMessages` |
| `CommandRegistry` | `command_handler.dfy` | `CommandHandler.loadCommands` and `getCommand` |
| `ServiceLifecycle` | `service_handler.dfy` | `ServiceHandler.loadServices` and `shutdownServices` |

Several things come from outside the program and are parameters:

- The clock, the captured stack text and the working directory.
- The outcome of each transport call and of each file append.
- Whether the log directory can be created.
- The Discord channel and the outcomes of its calls.
- The dynamic import and build of each command file.
- The success of each service's initialization and shutdown.

Mutable state follows the source:

- The logger, the transports, the entities, the embed builder and the handlers are classes whose methods change their fields.
- Standard output, standard error, the log files, the container and the channel calls are fields of type `seq` or `map`, extended by those methods.

The run directory is derived by replacing characters of the construction timestamp. The code uses a global regular expression, so every `:` and every `.` becomes `-`.

## Model

| member | source | states |
|---|---|---|
| LogInterfaces.LogLevel.Ordinal | src/log.Module/interfaces.ts:6-11 | each severity's numeric value is at most 3 |
| LogInterfaces.LogLevel.Name | src/log.Module/interfaces.ts:6-11 | the reverse enum mapping gives a name of one to five characters |
| LogInterfaces.LevelOf | src/log.Module/interfaces.ts:6-11 | a number names a severity exactly when it is 0..3, and then that severity's ordinal is the number |
| LogInterfaces.LevelOrder | src/log.Module/interfaces.ts:6-11 | distinct severities have distinct ordinals and names; `Below` is irreflexive, transitive and total; `LevelOf` inverts `Ordinal` |
| Logging.DigitRunStart | src/log.Module/logger.ts:64 | the start of the maximal digit run ending at a position: everything from it to the position is a digit, and the character before is not |
| Logging.DigitRunStartExact | src/log.Module/logger.ts:64 | a run of digits preceded by a non-digit starts exactly where the run starts |
| Logging.TailStart | src/log.Module/logger.ts:64 | the only place where the line can end in `:digits:digits)` |
| Logging.TailStartComplete | src/log.Module/logger.ts:64 | any position followed by a `:N:M)` tail is the one `TailStart` finds |
| Logging.TailStartAt | src/log.Module/logger.ts:64 | a line ending in `:N:M)` has its tail found at the colon before N |
| Logging.FirstOpen | src/log.Module/logger.ts:64 | the leftmost `(` from which no line terminator occurs up to the tail, if any |
| Logging.MatchLocation | src/log.Module/logger.ts:64-65 | the scanner for the frame regular expression; `MatchLocationIsLeftmostMatch` proves it agrees with the regular expression on every line |
| Logging.MatchLocationIsLeftmostMatch | src/log.Module/logger.ts:64-65 | the scanner finds a capture exactly when `/\((.*?):\d+:\d+\)$/` matches the line, and it captures the group of the leftmost match |
| Logging.MatchLocationOfFrame | src/log.Module/logger.ts:64-65 | a V8 frame `prefix(path:N:M)` yields exactly `path`, when the prefix has no `(` |
| Logging.CallerFilePathShortStack | src/log.Module/logger.ts:60-69 | a stack of at most four lines gives `unknown file` |
| Logging.CallerFilePathNoFrame | src/log.Module/logger.ts:62-69 | a fifth line without a location frame gives `unknown file` |
| Logging.CallerFilePathOfFrame | src/log.Module/logger.ts:57-67 | a fifth line that is a frame for `cwd/relative` gives `relative` |
| Logging.CallerFilePath | src/log.Module/logger.ts:57-70 | `getCallerFilePath` on the captured stack text and working directory; the three lemmas above give its result for a short stack, a line 4 without a frame, and a frame under the working directory |
| Logging.FirstThrow | src/log.Module/logger.ts:51 | the index of the first transport whose `log` throws synchronously, or the list's length |
| Logging.FilteredCallDoesNothing | src/log.Module/logger.ts:37-39 | below the minimum level nothing is built, delivered or reported |
| Logging.FanOutIsComplete | src/log.Module/logger.ts:41-51 | otherwise every transport is called exactly once, in list order, with the same record, whose level name is the enum member's name |
| Logging.RejectionsReportedOnce | src/log.Module/logger.ts:51-54 | at most one standard-error report per call, made exactly when some transport's promise rejects |
| Logging.ThrowStopsFanOut | src/log.Module/logger.ts:51 | a synchronous throw stops the fan-out after that transport and leaves the call; nothing is reported |
| Logging.ErrorRecordFields | src/log.Module/logger.ts:28-34 | `error` with an Error logs its message and stack; with a string, no stack |
| Logging.BuildRecord | src/log.Module/logger.ts:41-49 | the record built for a call that passes the filter; `FanOutIsComplete` states its fields |
| Logging.Dispatch | src/log.Module/logger.ts:36-55 | the effect of one logging call; `FilteredCallDoesNothing`, `FanOutIsComplete`, `RejectionsReportedOnce` and `ThrowStopsFanOut` state its cases |
| Logging.DebugThenInfoScenario | src/log.Module/logger.ts:16-51 | at level INFO, `debug("x")` then `info("y")` delivers exactly one record, "y" |
| Logging.Logger.constructor | src/log.Module/logger.ts:11-14 | the minimum level and the transports are the options' own and never change afterwards (they are constants) |
| Logging.Logger.Log | src/log.Module/logger.ts:36-55 | the loop over transports appends exactly the deliveries and reports `Dispatch` specifies and returns its outcome |
| Logging.Logger.Debug | src/log.Module/logger.ts:16-18 | logs at DEBUG with the message and meta unchanged and no stack |
| Logging.Logger.Info | src/log.Module/logger.ts:20-22 | logs at INFO with the message and meta unchanged and no stack |
| Logging.Logger.Warn | src/log.Module/logger.ts:24-26 | logs at WARN with the message and meta unchanged and no stack |
| Logging.Logger.Error | src/log.Module/logger.ts:28-34 | logs at ERROR with the Error's message and stack, or the string and no stack |
| ConsoleOutput.LevelColorCode | src/log.Module/transports/console.transport.ts:18-23 | each severity's colour is a two-digit SGR parameter |
| ConsoleOutput.LevelColorsDistinct | src/log.Module/transports/console.transport.ts:18-23 | two severities share a colour sequence only if they are the same severity |
| ConsoleOutput.VisibleColored | src/log.Module/transports/console.transport.ts:30-33 | a segment in a colour followed by a reset shows as its text |
| ConsoleOutput.VisibleFields | src/log.Module/transports/console.transport.ts:35 | four coloured segments joined by ` | ` show as their texts joined by ` | ` |
| ConsoleOutput.MainLineVisible | src/log.Module/transports/console.transport.ts:26-35 | colours aside, the main line is `timestamp | LEVEL | filePath | message`, with the level name padded to five |
| ConsoleOutput.MetaLineVisible | src/log.Module/transports/console.transport.ts:40 | the meta label shows as `Meta:` |
| ConsoleOutput.MainLine | src/log.Module/transports/console.transport.ts:26-35 | the coloured main line; `MainLineVisible` states what it shows |
| ConsoleOutput.Render | src/log.Module/transports/console.transport.ts:37-45 | the calls one `log` makes; `RenderShape` states their order and conditions |
| ConsoleOutput.RenderShape | src/log.Module/transports/console.transport.ts:37-45 | one to three calls in the order main, meta, stack; meta exactly when truthy, carrying the meta; stack exactly when non-empty, showing as the stack |
| ConsoleOutput.ConsoleTransport.constructor | src/log.Module/transports/console.transport.ts:7 | nothing has been written yet |
| ConsoleOutput.ConsoleTransport.Log | src/log.Module/transports/console.transport.ts:25-46 | standard output grows by exactly the rendered calls |
| Strings.PadEnd | src/log.Module/transports/console.transport.ts:27 | the padded text has the target length, starts with the text and continues with spaces |
| JsonText.NatToString | src/log.Module/transports/file.transport.ts:35 | a number's decimal digits are a non-empty digit string |
| JsonText.DigitsValueOfNat | src/log.Module/transports/file.transport.ts:35 | reading the digits back gives the number |
| JsonText.HexDigitValue | src/log.Module/transports/file.transport.ts:35 | each lowercase hex digit of a `\u00xx` escape reads back as its value |
| JsonText.EscapeNoControl | src/log.Module/transports/file.transport.ts:35 | an escaped string contains no control character, so no raw line feed (section 7 of RFC 8259) |
| JsonText.SerializeNoControl | src/log.Module/transports/file.transport.ts:35 | no serialized value contains a control character |
| JsonText.EscapeRoundTrip | src/log.Module/transports/file.transport.ts:35 | unescaping an escaped string up to its closing quote gives the string and the rest back |
| JsonText.ValueRoundTrip | src/log.Module/transports/file.transport.ts:35 | parsing a serialized value followed by a delimiter gives the value and the rest |
| JsonText.ArrayRoundTrip | src/log.Module/transports/file.transport.ts:35 | arrays round-trip through serialization |
| JsonText.ObjectRoundTrip | src/log.Module/transports/file.transport.ts:35 | objects round-trip with their members in order |
| JsonText.ItemsRoundTrip | src/log.Module/transports/file.transport.ts:35 | comma-separated items round-trip |
| JsonText.MembersRoundTrip | src/log.Module/transports/file.transport.ts:35 | comma-separated members round-trip |
| JsonText.NumberRoundTrip | src/log.Module/transports/file.transport.ts:35 | integers round-trip, negatives included |
| JsonText.StringRoundTrip | src/log.Module/transports/file.transport.ts:35 | strings round-trip, whatever characters they hold |
| JsonText.RecordJsonRoundTrip | src/log.Module/interfaces.ts:16-24 | a record's JSON object determines the record; absent meta and stack are omitted and read back as absent |
| JsonText.RecordLineRoundTrip | src/log.Module/transports/file.transport.ts:35 | a serialized record has no line feed, and parses back to its object and to the record |
| JsonText.Serialize | src/log.Module/transports/file.transport.ts:35 | compact `JSON.stringify` of a value; `ValueRoundTrip` proves the parser inverts it and `SerializeNoControl` that it holds no control character |
| JsonText.RecordToJson | src/log.Module/interfaces.ts:16-24 | the object `JSON.stringify` sees for a record; `RecordJsonRoundTrip` proves it determines the record |
| JsonText.SerializeRecord | src/log.Module/transports/file.transport.ts:35 | `JSON.stringify(data)`; `RecordLineRoundTrip` proves it is one line that parses back to the record |
| FileLog.RunStamp | src/log.Module/transports/file.transport.ts:17 | the stamp has the timestamp's length, with every `:` and `.` replaced by `-` |
| FileLog.RunStampClean | src/log.Module/transports/file.transport.ts:17 | the stamp contains neither `:` nor `.`; a timestamp without them is unchanged |
| FileLog.RunStampInjective | src/log.Module/transports/file.transport.ts:17 | distinct ISO timestamps give distinct run directories |
| FileLog.RunStampSegment | src/log.Module/transports/file.transport.ts:17-18 | an ISO timestamp's stamp contains no `/`, so it is a single path segment |
| FileLog.JournalSnoc | src/log.Module/transports/file.transport.ts:35-39 | appending an entry extends the file by that record's line |
| FileLog.JournalLines | src/log.Module/transports/file.transport.ts:35-39 | a file of N entries has N line feeds and splits into the N serialized records and a final empty piece |
| FileLog.JournalDecodes | src/log.Module/transports/file.transport.ts:35-39 | reading a log file line by line gives back exactly the records written, in order |
| FileLog.ErrorRecords | src/log.Module/transports/file.transport.ts:42-44 | the ERROR records of a sequence: every one of them and nothing else |
| FileLog.ErrorRecordsSnoc | src/log.Module/transports/file.transport.ts:42-44 | one more record adds it to the ERROR records exactly when it is an ERROR record |
| FileLog.Entry | src/log.Module/transports/file.transport.ts:35 | one record's entry: its serialization and a line feed; `JournalLines` proves the serialization itself holds no line feed |
| FileLog.Journal | src/log.Module/transports/file.transport.ts:39-44 | the contents of a file after appending entries in order; `JournalSnoc` and `JournalDecodes` state what reading it back gives |
| FileLog.AppendApp | src/log.Module/transports/file.transport.ts:39 | a successful append to `app.log` alone keeps each file holding its records' entries, and keeps the run clean unless the record is an ERROR |
| FileLog.AppendBoth | src/log.Module/transports/file.transport.ts:39-44 | successful appends of an ERROR record to both files keep `error.log` the ERROR records of `app.log` |
| FileLog.AllWritten | src/log.Module/transports/file.transport.ts:34-48 | for a transport on which every append so far succeeded (`clean`, which `FileTransport.Log` keeps exactly while its appends succeed), `error.log` holds exactly the ERROR records of `app.log`, and the files split into one line per record and per ERROR record, in order: after N ERROR and M other records, N + M and N line feeds |
| FileLog.FileTransport.constructor | src/log.Module/transports/file.transport.ts:15-32 | the directory is `cwd/baseDir/stamp` with `baseDir` defaulting to `logs`; the file paths are `app.log` and `error.log` in it; a failed directory creation is reported |
| FileLog.FileTransport.Log | src/log.Module/transports/file.transport.ts:34-48 | the entry goes to `app.log`, and to `error.log` only for ERROR and only after the first append succeeded; a failed append adds nothing, is reported once and stops the rest; every file keeps holding exactly its records' entries |
| DomainEntities.UserEntity.constructor | src/core/domain/entities/user.entity.ts:18-38 | every field is the given value |
| DomainEntities.UserActivityEntity.constructor | src/core/domain/entities/user-activity.entity.ts:17-37 | every field is the given value and the `user` link is unset |
| DomainEntities.PunishmentEntity.constructor | src/core/domain/entities/punishment.entity.ts:22-50 | every field is the given value |
| PersistenceMappers.WithoutRelations | src/core/domain/mappers/PunishmentMapper.ts:47-58 | a nested user keeps its scalar row and has empty relation lists |
| PersistenceMappers.UserToPersistence | src/core/domain/mappers/UserMapper.ts:65-73 | a user's five scalar fields as a row; `UserToDomain` proves that a row mapped to an entity reads back as itself |
| PersistenceMappers.ActivityToPersistence | src/core/domain/mappers/UserActivityMapper.ts:41-53 | an activity's seven fields as a row, without the `user` link; `ActivityToDomain` proves the round trip from a row |
| PersistenceMappers.PunishmentToPersistence | src/core/domain/mappers/PunishmentMapper.ts:67-82 | a punishment's ten scalar fields as a row, without the target and moderator objects; `PunishmentToDomain` proves the round trip from a row |
| PersistenceMappers.ActivityToDomain | src/core/domain/mappers/UserActivityMapper.ts:23-53 | a new entity whose seven fields read back as the row, with no `user` link |
| PersistenceMappers.ActivitiesToDomain | src/core/domain/mappers/UserMapper.ts:48-50 | one new entity per row, in order, each reading back as its row |
| PersistenceMappers.PunishmentToDomain | src/core/domain/mappers/PunishmentMapper.ts:35-82 | the ten scalar fields read back as the row; target and moderator are two new users mapped from their rows with empty lists |
| PersistenceMappers.PunishmentsToDomain | src/core/domain/mappers/UserMapper.ts:42-47 | one new punishment per payload, in order, each mapped as above |
| PersistenceMappers.UserToDomain | src/core/domain/mappers/UserMapper.ts:35-73 | the five scalar fields read back as the row; the lists keep length and order; every activity's `user`, received punishment's `target` and issued punishment's `moderator` is the new user |
| PersistenceMappers.LinkActivities | src/core/domain/mappers/UserMapper.ts:55 | every activity record's `user` link is the user; its persisted fields do not change |
| PersistenceMappers.LinkTargets | src/core/domain/mappers/UserMapper.ts:56 | every received punishment's `target` is the user; its moderator and persisted fields do not change |
| PersistenceMappers.LinkModerators | src/core/domain/mappers/UserMapper.ts:57 | every issued punishment's `moderator` is the user; its target and persisted fields do not change |
| Configuration.Lookup | src/core/ConfigService.ts.ts:51 | a variable's value exactly when it is set |
| Configuration.TrimmedIds | src/core/ConfigService.ts.ts:80-81 | one id per comma plus one, each the trimmed piece between commas |
| Configuration.DevOnlyIds | src/core/ConfigService.ts.ts:80-81 | the developer ids; `DevOnlyIdsShape` and `DevOnlyIdsRoundTrip` state their shape |
| Configuration.DevOnlyIdsShape | src/core/ConfigService.ts.ts:80-81 | absent gives `[]`; present gives commas + 1 ids, `[""]` for an empty value, each without commas or surrounding whitespace |
| Configuration.TrimmedPart | src/core/ConfigService.ts.ts:81 | a trimmed piece has no comma and no whitespace at either end |
| Configuration.DevOnlyIdsRoundTrip | src/core/ConfigService.ts.ts:80-81 | a whitespace-free value is recovered by joining the ids with commas |
| Configuration.LoadConfig | src/core/ConfigService.ts.ts:51-81 | the first missing or empty of TOKEN, GUILD_ID, DATABASE_URL is the error, in that order; on success the three fields are the variables' values, the level is debug exactly when LOG_LEVEL is `debug`, and the ids are `DevOnlyIds` |
| Strings.Split | src/core/ConfigService.ts.ts:81 | `split` on one character gives separator-count + 1 pieces without the separator |
| Strings.JoinSplit | src/core/ConfigService.ts.ts:81 | joining the pieces of a split gives the string back |
| Strings.SplitJoin | src/log.Module/logger.ts:60 | splitting a join of separator-free pieces gives the pieces back |
| Strings.TrimIsMiddle | src/core/ConfigService.ts.ts:81 | `trim` keeps a middle slice with only whitespace cut from both ends |
| Strings.TrimKeeps | src/core/ConfigService.ts.ts:81 | a string without whitespace at either end is its own trim |
| Strings.RemoveFirstPrefix | src/log.Module/logger.ts:66 | removing the first occurrence of a prefix leaves the rest |
| Strings.RemoveFirstAbsent | src/log.Module/logger.ts:66 | removing an absent text changes nothing |
| Strings.RemoveFirstLeftmost | src/log.Module/logger.ts:66 | the removed occurrence is the leftmost |
| Embeds.Emoji | src/utils/embedFactory.ts:90-130 | each template's emoji is non-empty, with no whitespace at either end |
| Embeds.TemplateOptions | src/utils/embedFactory.ts:87-131 | a template forces its colour, passes every other option through, and makes the description the emoji alone, or the emoji, a space and the caller's text when that is not blank; never empty |
| Embeds.ApplyTemplate | src/utils/embedFactory.ts:87-91 | the options a template hands to the base embed; `TemplateOptions` states them |
| Embeds.DefaultFooter | src/utils/embedFactory.ts:64-67 | the default footer reads `ID: ` plus the user's id, with the user's avatar |
| Embeds.Embed.constructor | src/utils/embedFactory.ts:51 | the builder holds exactly the values given; `None` and the empty field list stand for a field never set |
| Embeds.CreateBaseEmbed | src/utils/embedFactory.ts:47-73 | each option is set only when truthy (fields and author whenever given); the footer is the caller's or the default; the timestamp is always set |
| Embeds.CreateTemplateEmbed | src/utils/embedFactory.ts:83-133 | `TemplatedEmbed`: the template's colour; the description exactly `(emoji + " " + (description ?? "")).trim()`, which is the emoji alone for a blank text and otherwise the emoji, a space and the text without trailing whitespace; title, fields, author, thumbnail and image as the base embed sets them from the caller's options; the caller's or the default footer; the call's time |
| Embeds.CreateSuccessEmbed | src/utils/embedFactory.ts:83-93 | colour `#68bb82`, and the whole templated embed (`TemplatedEmbed`) with ✅ |
| Embeds.CreateErrorEmbed | src/utils/embedFactory.ts:103-113 | colour `#cf6b6d`, and the whole templated embed (`TemplatedEmbed`) with ❌ |
| Embeds.CreateInfoEmbed | src/utils/embedFactory.ts:123-133 | colour `#7a81c7`, and the whole templated embed (`TemplatedEmbed`) with ℹ️ |
| Chat.Fetched | src/services/guild/chat.ts:41 | the fetch returns the newest messages, at most 100 |
| Chat.ByAuthor | src/services/guild/chat.ts:44-47 | a message is kept exactly when it is in the input and by the author |
| Chat.ByAuthorConcat | src/services/guild/chat.ts:44-47 | the filter keeps order: it distributes over concatenation |
| Chat.SliceTo | src/services/guild/chat.ts:52-55 | `slice(0, end)` is a prefix of length `min(end, length)`, counted from the back for a negative end |
| Chat.Candidates | src/services/guild/chat.ts:44-50 | a fetched message is a candidate exactly when there is no target or it is the target's |
| Chat.Selection | src/services/guild/chat.ts:41-55 | the selection never exceeds 100 messages |
| Chat.SelectionShape | src/services/guild/chat.ts:44-55 | for amounts 1..100 the selection is the first `min(amount, candidates)` candidates, all among the newest hundred and, with a target, all by the target |
| Chat.EmptySelection | src/services/guild/chat.ts:44-60 | for amounts 1..100 the selection is empty exactly when no fetched message qualifies |
| Chat.ChatService.constructor | src/services/guild/chat.ts:11-14 | no channel call has been made yet |
| Chat.ChatService.PurgeMessages | src/services/guild/chat.ts:23-77 | a DM channel gets no call and gives 0; otherwise one fetch of 100, a bulk delete of the selection with old messages filtered only when it is non-empty, and the reported count, or 0 on an empty selection or any failure |
| CommandRegistry.CommandFiles | src/handlers/commandHandler.ts:34-38 | a listed file is kept exactly when it ends in `.ts` or `.js` and does not start with `index` |
| CommandRegistry.Failures | src/handlers/commandHandler.ts:57-62 | a file is reported exactly when its loading threw |
| CommandRegistry.LastWins | src/handlers/commandHandler.ts:47-52 | the entry under a name is the command of the last file that builds one with that name |
| CommandRegistry.Untouched | src/handlers/commandHandler.ts:44-52 | a name no file builds keeps its previous entry or stays absent |
| CommandRegistry.FailureIsolated | src/handlers/commandHandler.ts:40-63 | a file that throws or exports no class leaves the table as if it were not listed |
| CommandRegistry.CommandHandler.constructor | src/handlers/commandHandler.ts:22-26 | the table starts empty |
| CommandRegistry.CommandHandler.LoadCommands | src/handlers/commandHandler.ts:31-65 | the table is the left fold of the command files' outcomes in listing order; the failures reported are exactly the throwing files, in order |
| CommandRegistry.CommandHandler.LoadFiles | src/handlers/commandHandler.ts:40-63 | after the loop, the table is the left fold of the files' outcomes and the failures are the throwing files in order; a failure does not stop the loop |
| CommandRegistry.CommandHandler.GetCommand | src/handlers/commandHandler.ts:97-99 | a command exactly when one is stored under the name, and then that one |
| Strings.LowerFirst | src/handlers/serviceHandler.ts:31-32 | the DI name has the class name's length and tail, and its first character is lower-cased |
| ServiceLifecycle.DiNameIdempotent | src/handlers/serviceHandler.ts:31-32 | deriving the DI name again changes nothing |
| ServiceLifecycle.DiNameShape | src/handlers/serviceHandler.ts:31-32 | same length and tail, no upper-case first letter; a name not starting with one is its own DI name |
| ServiceLifecycle.Registrations | src/handlers/serviceHandler.ts:29-37 | one registration per service |
| ServiceLifecycle.Inits | src/handlers/serviceHandler.ts:40-54 | one initialization per service |
| ServiceLifecycle.Shutdowns | src/handlers/serviceHandler.ts:65-82 | one shutdown per service |
| ServiceLifecycle.FailedNames | src/handlers/serviceHandler.ts:48-81 | a name is reported exactly when some service with that name failed |
| ServiceLifecycle.RegisterBeforeInit | src/handlers/serviceHandler.ts:29-54 | every registration precedes every initialization; the k-th of each is the k-th service's, under its DI name |
| ServiceLifecycle.ShutdownMirrorsInit | src/handlers/serviceHandler.ts:40-69 | shutdown uses the same DI names in the same order as initialization |
| ServiceLifecycle.RegistryResolves | src/handlers/serviceHandler.ts:33-46 | a DI name resolves to the last service registered under it |
| ServiceLifecycle.DistinctNamesResolve | src/handlers/serviceHandler.ts:33-46 | with distinct DI names every service resolves to its own class |
| ServiceLifecycle.ServiceHandler.constructor | src/handlers/serviceHandler.ts:15-17 | no call made, nothing reported |
| ServiceLifecycle.ServiceHandler.LoadServices | src/handlers/serviceHandler.ts:22-58 | an empty list is warned about and changes nothing else; otherwise all registrations, then all initializations, every failure reported and none stopping the loop |
| ServiceLifecycle.ServiceHandler.RegisterAll | src/handlers/serviceHandler.ts:29-37 | the container gains each service under its DI name, in order |
| ServiceLifecycle.ServiceHandler.InitAll | src/handlers/serviceHandler.ts:40-54 | every service is initialized in order, whatever the others did; the failures are reported in order |
| ServiceLifecycle.ServiceHandler.ShutdownServices | src/handlers/serviceHandler.ts:63-84 | every service is shut down in list order under its DI name; failures are reported without stopping the loop |

## Left out

- Asynchrony is modelled sequentially.
  - The logger's fire-and-forget `Promise.all` fan-out and the awaits in the transports and handlers run one after another.
  - The un-awaited directory creation in the file transport races with the first append. That ordering is not modelled: the constructor only records whether creation fails.
- `path.join` is modelled as joining with `/`. Its normalisation of `..`, `.` and repeated separators is not modelled.
- Metadata is modelled only as far as JSON carries it: null, booleans, integers, strings, arrays and objects.
- JsonText.Serialize: writes every integer in full. `JSON.stringify` does so only for safe integers: it writes numbers of magnitude 1e21 and above in exponent form, and beyond 2^53 the shortest digits that read back to the same double. The record's own number, its level, is 0..3.
- JsonText.Serialize: keeps an object's members in insertion order. JavaScript lists integer-like keys such as `"0"` first, in ascending order. The record's own keys are fixed names; only objects inside the metadata can differ.
  - Not modelled: non-integral numbers, `undefined` inside values, circular structures, BigInt, and `toJSON` methods.
  - `util.inspect` formatting of the console's meta argument is not modelled. The value itself is recorded.
- JsonText.UnescapeBody: the parser rejects `\u` escapes of surrogates and does not pair them. `JSON.stringify` of well-formed strings never produces such escapes, so the round trip is unaffected.
- Case mapping is ASCII only. `toLowerCase` on non-ASCII first letters is not modelled.
- The console transport's fallback to the reset colour for an unknown level cannot occur, because the level type has exactly four members. It is not modelled.
- The file transport's path fields are private and assigned only in the constructor, so they are modelled as constants.
- Logging text is not modelled: the log lines of the configuration service, the chat service and the handlers, and the Russian messages.
  - Logged failures are recorded: failing command files, failing service names, and the empty-list warning.
  - The fatal configuration errors become a `Failure` result instead of `process.exit(1)`.
- Discord, awilix and dynamic import are oracles. These are:
  - `messages.fetch`, `bulkDelete` and its 14-day filtering;
  - `import` and `container.build`;
  - `container.register` and `resolve`;
  - `init` and `shutdown`.
- Chat.ChatService.PurgeMessages: the count returned is whatever the bulk delete reports. It is not bounded by the selection, because the bulk delete's behaviour is not visible.
- Chat.SliceTo: non-integral amounts are not modelled. The purge command only passes integers.
- `registerGuildCommands` is a REST call and is not modelled.
- The generated database enum file `src/generated/prisma/index.d.ts` is not part of this model. Its four punishment kinds are the `PunishmentType` datatype.
- Embed rendering and validation by `EmbedBuilder` are not modelled. The builder is a record of the fields set on it.
- The file transport assumes an `appendFile` call adds its whole entry or nothing. A partial write is not modelled.
- CommandRegistry.CommandHandler.LoadCommands: the directory listing is an input. A failing `fs.readdir` rejects the call before the loop starts, and that path is not modelled.
- Embeds.CreateBaseEmbed: decides each option first and builds the embed with those values at once. Because the builder starts empty, this is the state the setters reach one by one.
