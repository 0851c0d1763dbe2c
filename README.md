# Toggl Desktop `next/` core, modelled in Dafny

This project models the C++ library core of the Toggl Desktop time tracker
(the `next/` directory): the in-memory domain model and the rules it applies
before anything is sent to the server or written to the local database.

- **Sync state of every model** (`base_model.dfy`). Every setter raises the
  dirty flag only when the value changes. The model decides which HTTP verb
  it needs (POST, PUT or DELETE, never two at once), whether it must be
  saved locally, how a batch-update reply is folded back into it, and the
  JSON of its batch update.
- **Entities** (`time_entry.dfy`, `timeline_event.dfy`, `autotracker.dfy`,
  `workspace.dfy`, `client.dfy`, `task.dfy`, `tag.dfy`, `country.dfy`,
  `project.dfy`, `user.dfy`). Each is a class whose setters follow the same
  change-then-dirty rule, plus its own rules:
  - the non-negative duration of a timeline event;
  - the substring match of an autotracker rule;
  - the business flag of a workspace;
  - the repairs a client and a time entry apply to server errors;
  - the time-entry arithmetic: tracking, `DiscardAt` and the three
    user-input editors;
  - the tab-separated tag list, which round-trips, and its
    order-independent hash.
- **The user's data** (`user.dfy`, `userdata.dfy`):
  - placing a new project in the sorted project list;
  - finding and stopping running entries;
  - marking zombies;
  - cascading a workspace deletion;
  - unlinking a deleted client, project or task;
  - looking a GUID up across the nine containers in a fixed order;
  - collecting the pending requests in that order;
  - the initial load from the server's reply.
- **Containers** (`container.dfy`): a list of models with lookups by ID and
  GUID, create, remove, erase and clear.
- **Errors** (`errors.dfy`): both versions of the HTTP-status-to-error
  mapping, the message tables, and the recognition of server error texts.
- **Strings** (`strings.dfy`): `trim_whitespace`, decimal rendering, case
  folding, and the tab split and join.
- **Window settings** (`settings.dfy`): the stored window geometry and the
  two C API functions that store and read it.
- **The view layer** (`api_tools.dfy`): the quarter-hour margins of a time
  entry on the timeline, the time-entry view item, and the country list
  built in reverse.
- **The database** (`database.dfy`). The database is modelled by its
  policies:
  - the clamped minute settings;
  - the allowed update channels;
  - the guards of the delete and session statements;
  - migrations that run once;
  - saving a user's list of models, which purges the models deleted on
    the server;
  - saving timeline events, with their strings cut to 300 characters;
  - saving the user.

The locks (`recursive_mutex` and `locked<T>` handles) are erased: everything
is single-threaded. Clocks, generated GUIDs, parsed JSON values, parsed
times, the formatter and SQLite's row ids become parameters of the
operations that use them. A C++ `std::list` or `std::vector` of model
pointers becomes a `seq` of object references.

## Model

| member | source | states |
|---|---|---|
| Strings.FirstNonWhitespace | next/misc/string_tools.h:12-15 | the index it finds is the first character from the start that is neither a space nor a tab, or the end when everything after the start is whitespace |
| Strings.EndOfNonWhitespace | next/misc/string_tools.h:17 | the index it finds is one past the last character that is neither a space nor a tab, or 0 when there is none |
| Strings.TrimWhitespace | next/misc/string_tools.h:10-21 | the result is empty exactly when the input is all spaces and tabs; otherwise it starts and ends with a non-whitespace character and is a contiguous piece of the input |
| Strings.TrimIdempotent | next/misc/string_tools.h:10-21 | trimming an already trimmed string changes nothing |
| Strings.DigitChar | next/model/base_model.cc:238 | a digit below ten is written as a decimal digit character |
| Strings.DigitValue | next/model/base_model.cc:238 | a decimal digit character stands for a value below ten |
| Strings.NatToString | next/model/base_model.cc:238 | the decimal text of an ID is non-empty, all digits and has no leading zero |
| Strings.IntToString | next/model/client.cc:28-29 | the decimal text of a signed local ID starts with a minus sign exactly when the number is negative |
| Strings.NatToStringRoundTrip | next/model/base_model.cc:238 | reading the decimal text of an ID back gives the same ID |
| Strings.NatToStringInjective | next/model/base_model.cc:238 | two IDs with the same decimal text are equal, so the ID in a URL is unambiguous |
| Strings.ContainsBounds | next/model/autotracker.cc:13-18 | every text contains the empty term, and a term longer than the text is never found in it |
| Strings.LowerChar | next/model/autotracker.cc:13 | lower-casing maps an upper-case ASCII letter to its lower-case form and keeps every other character |
| Strings.ToLower | next/model/autotracker.cc:13 | lower-casing keeps the length and lower-cases each character |
| Strings.NoUpperInLowered | next/model/autotracker.cc:13-18 | a term holding an upper-case letter is never found in lower-cased text |
| Strings.ICompare | next/model/user.cc:83 | the case-insensitive comparison returns -1, 0 or 1, and 0 exactly when both strings lower-case to the same text |
| Strings.ICompareAntisymmetric | next/model/user.cc:83 | swapping the two strings negates the comparison |
| Strings.LessIrreflexive | next/model/time_entry.cc:432 | no string sorts before itself |
| Strings.LessTotal | next/model/time_entry.cc:432 | of two different strings one sorts before the other |
| Strings.LessAsymmetric | next/model/time_entry.cc:432 | two strings never both sort before each other |
| Strings.LessTransitive | next/model/time_entry.cc:432 | the string order is transitive |
| Strings.InsertSorted | next/model/time_entry.cc:432 | inserting into a sorted list keeps it sorted and adds exactly the new string |
| Strings.SortStrings | next/model/time_entry.cc:431-432 | sorting the tag names gives a sorted permutation of them |
| Strings.SortedHeadIsLeast | next/model/time_entry.cc:432 | the first string of a sorted list sorts before none of its strings |
| Strings.SortedUnique | next/model/time_entry.cc:431-432 | two sorted lists holding the same strings are equal |
| Strings.SortIgnoresOrder | next/model/time_entry.cc:429-440 | two lists that are permutations of each other sort to the same list, so the tag hash ignores tag order |
| Strings.Split | next/model/time_entry.cc:334-341 | splitting on the separator gives at least one piece, and no piece holds the separator |
| Strings.JoinExtendLast | next/model/time_entry.cc:417-427 | adding a character to the last piece adds it at the end of the joined text |
| Strings.JoinAppendEmpty | next/model/time_entry.cc:417-427 | appending an empty piece appends one separator to the joined text |
| Strings.JoinSplit | next/model/time_entry.cc:331-344 | joining the pieces of a split with the separator gives the original text back |
| Strings.SplitWithoutSeparator | next/model/time_entry.cc:334-341 | a text without the separator splits into itself alone |
| Strings.SplitAppend | next/model/time_entry.cc:334-341 | a separator and a separator-free piece appended to a text add that piece to its split |
| Strings.SplitJoin | next/model/time_entry.cc:331-344 | splitting the join of separator-free pieces gives the pieces back |
| Errors.Message | next/misc/error.cc:7-14 | a code in the message table gets its entry; any other code gets exactly "Unknown error (", its number in decimal, then ")" |
| Errors.UnknownMessageNamesCode | next/misc/error.cc:7-14 | the text of a code missing from the table starts "Unknown error (", ends with ")", and the digits between read back as the code's number |
| Errors.FromString | next/misc/error.cc:27-29 | any server message converts to the successful code |
| Errors.IsNoError | next/misc/error.cc:45-47 | the successful code; Errors.FromString returns it for every message |
| Errors.Less | next/misc/error.cc:36-38 | codes compare by their numbers; Errors.LessIsStrictOrder and Errors.LessIsTotal show the order is strict and total |
| Errors.OrdinalInjective | next/misc/error.cc:36-38 | two codes with the same number are the same code |
| Errors.LessIsStrictOrder | next/misc/error.cc:36-38 | `<` on codes is irreflexive, transitive and asymmetric |
| Errors.LessIsTotal | next/misc/error.cc:36-38 | of two distinct codes one is less than the other |
| Errors.FromHttpStatus | next/misc/error.cc:53-95 | the result is one of the ten HTTP codes; no error exactly for 200-202, backend-down exactly for 500-505, cannot-connect exactly for 429 and every status the switch does not list; and each of bad request, unauthorized, payment required, forbidden, request not possible, endpoint gone and unsupported app exactly for 400, 401, 402, 403, 404, 410 and 418 respectively |
| Errors.ClientErrorsDistinct | next/misc/error.cc:59-82 | different documented 4xx statuses map to different codes |
| Errors.FromServerError | next/misc/error.cc:97-108 | the result is the first code, in ascending order, of the eight validation codes whose message occurs in the server message, or no error when none occurs |
| LegacyErrors.Ordinal | next/misc/error.h:13-24 | every code has an enumerator value below ten |
| LegacyErrors.CodeOf | next/misc/error.h:13-24 | a value from 0 to 9 names the code whose enumerator value it is |
| LegacyErrors.Message | next/misc/error.h:25-44 | a stored value from 0 to 9 gets the table's text for that code, and the text is empty exactly for the successful code; any other value gets a text starting "Unknown error (" |
| LegacyErrors.MessagesDistinct | next/misc/error.h:26-37 | no two codes share a message text |
| LegacyErrors.FromHttpStatus | next/misc/error.cpp:11-53 | the older status mapping gives no error exactly for 200-202, backend-offline exactly for 500-505, cannot-connect exactly for 429 and every unlisted status, and each 4xx code exactly for its status (400, 401, 402, 403, 404, 410, 418) |
| LegacyErrors.FromHttpStatusAgrees | next/misc/error.cpp:11-53 | the older and the newer status mappings give corresponding codes for every status |
| BaseModels.BaseModel.constructor | next/model/base_model.h:33-45 | a new model has no local ID, no server ID, no GUID, no user, no error, and is neither dirty, deleted nor unsynced |
| BaseModels.BaseModel.BatchUpdateMethod | next/model/base_model.cc:242-253 | the verb is DELETE exactly when the model needs a DELETE, POST exactly when it needs a POST, and PUT whenever it needs a PUT |
| BaseModels.BaseModel.BatchUpdateRelativeURL | next/model/base_model.cc:231-240 | the URL starts with the model's URL; it is that URL alone exactly when the model needs a POST, otherwise it continues with "/" and the decimal server ID |
| BaseModels.BaseModel.BatchUpdateJSON | next/model/base_model.cc:256-271 | a model without a GUID fails with the batch-update-without-GUID error and produces nothing; otherwise the request carries the verb, the relative URL, the GUID and the model's JSON under its model name |
| BaseModels.BaseModel.SetLocalID | next/model/base_model.cc:324-327 | the local ID is stored without marking the model dirty |
| BaseModels.BaseModel.SetID | next/model/base_model.cc:150-156 | the ID is stored, and the model becomes dirty exactly when the ID changed (or stays dirty) |
| BaseModels.BaseModel.SetGUID | next/model/base_model.cc:111-117 | the GUID is stored, and the model becomes dirty exactly when it changed |
| BaseModels.BaseModel.SetUID | next/model/base_model.cc:142-148 | the user ID is stored, and the model becomes dirty exactly when it changed |
| BaseModels.BaseModel.SetUIModifiedAt | next/model/base_model.cc:124-130 | the modification time is stored, and the model becomes dirty exactly when it changed |
| BaseModels.BaseModel.SetUIModified | next/model/base_model.cc:132-135 | the modification time becomes the current time, dirty exactly when that changed it |
| BaseModels.BaseModel.SetDeletedAt | next/model/base_model.cc:90-96 | the deletion time is stored, and the model becomes dirty exactly when it changed |
| BaseModels.BaseModel.SetUpdatedAt | next/model/base_model.cc:103-109 | the update time is stored, and the model becomes dirty exactly when it changed |
| BaseModels.BaseModel.SetUpdatedAtString | next/model/base_model.cc:163-166 | the parsed update time is stored, and the model becomes dirty exactly when it changed |
| BaseModels.BaseModel.SetValidationError | next/model/base_model.cc:65-71 | the validation error is stored, and the model becomes dirty exactly when it changed |
| BaseModels.BaseModel.ClearValidationError | next/model/base_model.cc:60-63 | the validation error becomes no error, dirty exactly when there was one |
| BaseModels.BaseModel.EnsureGUID | next/model/base_model.cc:52-58 | afterwards the model has a GUID; an existing GUID and the dirty flag are kept, a missing one is replaced by the generated one and marks the model dirty |
| BaseModels.BaseModel.SetDirty | next/model/base_model.cc:278-281 | the model is dirty |
| BaseModels.BaseModel.ClearDirty | next/model/base_model.cc:288-291 | the model is clean |
| BaseModels.BaseModel.SetUnsynced | next/model/base_model.cc:298-301 | the model is unsynced |
| BaseModels.BaseModel.ClearUnsynced | next/model/base_model.cc:303-306 | the model is synced |
| BaseModels.BaseModel.MarkAsDeletedOnServer | next/model/base_model.cc:173-177 | the model is marked deleted on the server and dirty |
| BaseModels.BaseModel.Delete | next/model/base_model.cc:190-194 | the deletion and modification times both become the current time, dirty exactly when either changed |
| BaseModels.BaseModel.ApplyBatchUpdateResult | next/model/base_model.cc:196-224 | a gone resource is marked deleted and succeeds; an error becomes the validation error and is returned; a success clears the validation error and fails only on a body that is not valid JSON |
| BaseModels.OneRequestKind | next/model/base_model.cc:29-45 | a model never needs two of POST, PUT and DELETE at once |
| BaseModels.BaseModel.NeedsPOST | next/model/base_model.cc:29-33 | no server ID and not deleted; BaseModels.OneRequestKind and BaseModels.PushedMethodIsNeeded relate it to the other needs |
| BaseModels.BaseModel.NeedsPUT | next/model/base_model.cc:35-39 | a server ID, changed in the UI and not deleted; excluded by the other needs (BaseModels.OneRequestKind) |
| BaseModels.BaseModel.NeedsDELETE | next/model/base_model.cc:41-45 | a server ID and deleted; excluded by the other needs (BaseModels.OneRequestKind) |
| BaseModels.BaseModel.NeedsPush | next/model/base_model.cc:18-27 | no validation error and one of the three requests needed; BaseModels.PushedMethodIsNeeded shows the chosen verb is a needed one |
| BaseModels.BaseModel.NeedsToBeSaved | next/model/base_model.cc:47-50 | never stored locally, or dirty; Databases.Database.SaveTimelineEvent and Databases.Database.SaveUser leave a successfully saved model no longer needing it |
| BaseModels.PushedMethodIsNeeded | next/model/base_model.cc:18-27 | for a model that needs a push, the verb chosen for the batch update is one the model needs |
| Containers.Empty | next/misc/memory.h:18-21 | an empty handle is not valid and holds no model |
| Containers.Holding | next/misc/memory.h:27-39 | a handle to a model is valid and holds that model |
| Containers.FirstIndex | next/misc/memory.h:121-128 | the index found holds the key with no earlier occurrence, and there is none exactly when the key is absent |
| Containers.FirstIndexAppend | next/misc/memory.h:85-89 | appending models leaves the first occurrence of a key already present where it was, and finds an absent key among the appended ones |
| Containers.Without | next/test/memory_test.cc:91-110 | taking out one position keeps the models before it and shifts the ones after it down by one |
| Containers.WithoutUniqueIsGone | next/test/memory_test.cc:73-89 | in a list without repeats, the key taken out is no longer present |
| Containers.WithoutKeepsOthers | next/test/memory_test.cc:112-137 | taking out one position keeps every other key present |
| Containers.Ids | next/misc/memory.h:121-128 | the IDs of the contained models, position by position |
| Containers.Guids | next/misc/memory.h:147-154 | the GUIDs of the contained models, position by position |
| Containers.Found | next/misc/memory.h:121-128 | a found index gives a valid handle to the model there; no index gives an invalid handle |
| Containers.SearchGuid | next/misc/memory.h:147-154 | the loop finds the first position whose model has the GUID, or none |
| Containers.SearchId | next/misc/memory.h:121-128 | the loop finds the first position whose model has the ID, or none |
| Containers.FirstIndexUnique | next/misc/memory.h:121-128 | a position holding the key with no earlier occurrence is the one the search finds |
| Containers.ProtectedModel.constructor | next/test/memory_test.cc:26-31 | a new container is empty |
| Containers.ProtectedModel.Size | next/misc/memory.h:94-97 | the size is the number of contained models |
| Containers.ProtectedModel.Clear | next/misc/memory.h:72-79 | afterwards the container is empty |
| Containers.ProtectedModel.Create | next/misc/memory.h:85-89 | one new model is appended and handed back in a valid handle, and the size grows by one |
| Containers.ProtectedModel.CreateWith | next/test/memory_test.cc:41-55 | a new model with the given GUID and ID is appended and handed back |
| Containers.ProtectedModel.FindByID | next/misc/memory.h:121-128 | the handle is valid exactly when some model has the ID, and then holds the first such model |
| Containers.ProtectedModel.FindByGUID | next/misc/memory.h:147-154 | the handle is valid exactly when some model has the GUID, and then holds the first such model |
| Containers.ProtectedModel.At | next/test/memory_test.cc:57-71 | a position inside the container gives the model there; one past the end gives an invalid handle |
| Containers.ProtectedModel.Remove | next/test/memory_test.cc:73-89 | the first model with the GUID is taken out and the rest keep their order; an absent GUID changes nothing |
| Containers.ProtectedModel.Erase | next/test/memory_test.cc:91-110 | the model at the position is taken out and the size drops by one |
| Containers.GuidsWithout | next/test/memory_test.cc:112-145 | the GUIDs and IDs after taking a position out are the ones before with that position taken out |
| Containers.RemovedModelIsGone | next/test/memory_test.cc:73-89 | with unique GUIDs and IDs, the removed model is found neither by its GUID nor by its ID and the size drops by one |
| Containers.RemovalKeepsOthersFindable | next/test/memory_test.cc:126-137 | removing one model leaves every model with another GUID findable |
| TimelineEvents.ClampedDuration | next/model/timeline_event.cc:93-96 | the duration is never negative and is the time from start to end whenever that is not negative, 0 otherwise |
| TimelineEvents.TimelineEvent.ModelURL | next/model/timeline_event.cc:27-29 | timeline events have an empty model URL |
| TimelineEvents.TimelineEvent.SetTitle | next/model/timeline_event.cc:31-36 | the title is stored, dirty exactly when it changed |
| TimelineEvents.TimelineEvent.SetStart | next/model/timeline_event.cc:38-44 | the start is stored; a change recomputes the duration and marks the model dirty, an unchanged start keeps both |
| TimelineEvents.TimelineEvent.SetEndTime | next/model/timeline_event.cc:46-52 | the end is stored; a change recomputes the duration and marks the model dirty, an unchanged end keeps both |
| TimelineEvents.TimelineEvent.SetIdle | next/model/timeline_event.cc:54-59 | the idle flag is stored, dirty exactly when it changed |
| TimelineEvents.TimelineEvent.SetFilename | next/model/timeline_event.cc:61-66 | the file name is stored, dirty exactly when it changed |
| TimelineEvents.TimelineEvent.SetChunked | next/model/timeline_event.cc:68-73 | the chunked flag is stored, dirty exactly when it changed |
| TimelineEvents.TimelineEvent.SetUploaded | next/model/timeline_event.cc:75-80 | the uploaded flag is stored, dirty exactly when it changed |
| TimelineEvents.TimelineEvent.UpdateDuration | next/model/timeline_event.cc:93-96 | afterwards the duration matches the clamped distance from start to end |
| TimelineEvents.TimelineEvent.SaveToJSON | next/model/timeline_event.cc:82-91 | the JSON holds exactly the GUID, file name, title, start, end and "created_with": "timeline", each with the event's value |
| TimelineEvents.TimelineEvent.LoadFromJSON | next/model/timeline_event.cc:98-100 | loading reads nothing and always succeeds |
| TimelineEvents.SetSameTimesKeepsState | next/model/timeline_event.cc:38-52 | setting the same start and end again changes neither the duration nor the dirty flag |
| Autotracker.EmptyTermMatchesEverything | next/model/autotracker.cc:12-22 | the empty term matches every event |
| Autotracker.TermMatches | next/model/autotracker.cc:12-22 | the term occurs in the lower-cased file name or title; characterised by Autotracker.EmptyTermMatchesEverything, Autotracker.UpperCaseTermNeverMatches and Autotracker.LongTermNeverMatches |
| Autotracker.AutotrackerRule.Matches | next/model/autotracker.cc:12-22 | the rule's term matches the event's file name or title; Autotracker.NewRuleMatchesEverything shows a new rule matches every event |
| Autotracker.UpperCaseTermNeverMatches | next/model/autotracker.cc:12-22 | a term with an upper-case ASCII letter matches no event, because only the event's text is lower-cased |
| Autotracker.LongTermNeverMatches | next/model/autotracker.cc:12-22 | a term longer than both the file name and the title matches nothing |
| Autotracker.AutotrackerRule.constructor | next/model/autotracker.h:19-23 | a new rule has an empty term, no project and no task |
| Autotracker.AutotrackerRule.ModelURL | next/model/autotracker.cc:71-73 | rules have an empty model URL |
| Autotracker.AutotrackerRule.SetTerm | next/model/autotracker.cc:28-33 | the term is stored, dirty exactly when it changed |
| Autotracker.AutotrackerRule.SetPID | next/model/autotracker.cc:39-44 | the project ID is stored, dirty exactly when it changed |
| Autotracker.AutotrackerRule.SetTID | next/model/autotracker.cc:50-55 | the task ID is stored, dirty exactly when it changed |
| Autotracker.NewRuleMatchesEverything | next/model/autotracker.cc:12-22 | a rule whose term is empty matches every event |
| Workspaces.Workspace.ModelURL | next/model/workspace.cc:102-104 | workspaces live under "/api/v9/workspaces" |
| Workspaces.Workspace.SetName | next/model/workspace.cc:19-25 | the name is stored, dirty exactly when it changed |
| Workspaces.Workspace.SetPremium | next/model/workspace.cc:27-33 | the premium flag is stored, dirty exactly when it changed |
| Workspaces.Workspace.SetOnlyAdminsMayCreateProjects | next/model/workspace.cc:35-41 | the flag is stored, dirty exactly when it changed |
| Workspaces.Workspace.SetAdmin | next/model/workspace.cc:43-49 | the admin flag is stored, dirty exactly when it changed |
| Workspaces.Workspace.SetProjectsBillableByDefault | next/model/workspace.cc:51-57 | the flag is stored, dirty exactly when it changed |
| Workspaces.Workspace.SetBusiness | next/model/workspace.cc:59-65 | the business flag is stored, dirty exactly when it changed |
| Workspaces.Workspace.SetLockedTime | next/model/workspace.cc:67-73 | the lock time is stored, dirty exactly when it changed |
| Workspaces.Workspace.LoadFromJSON | next/model/workspace.cc:75-87 | every field is taken from the JSON, the workspace is business exactly when its profile is above 13, and it becomes dirty exactly when the ID or some loaded field changes |
| Workspaces.Workspace.LoadSettingsFromJson | next/model/workspace.cc:89-96 | an empty lock date changes nothing; any other sets the lock time to the parsed date, dirty exactly when it changed |
| Clients.ResolutionAsWritten | next/model/client.cc:73-85 | as written: a taken name is renamed, ClientNameAlreadyExists alone is left unresolved, and every other error deletes the client |
| Clients.NameHasAlreadyBeenTaken | next/model/client.cc:87-90 | the error's text holds "Name has already been taken"; it selects the rename in Clients.Client.ResolveError |
| Clients.Client.ResourceCannotBeCreated | next/model/client.cc:92-96 | the error's text says clients cannot be added in the workspace; it selects the deletion mark in Clients.Client.ApplyBatchUpdateResult |
| Clients.IntendedResolution | next/model/client.cc:73-85 | as intended: a taken name is renamed, the duplicate-name error deletes the client, and every other error is left unresolved |
| Clients.OutageDeletesClientAsWritten | next/model/client.cc:79-83 | a backend outage deletes the client as written and is left unresolved as intended |
| Clients.ResolutionsDisagree | next/model/client.cc:79-83 | the two rules differ on every error that is not about the name |
| Clients.Client.constructor | next/model/client.h:20-23 | a new client has no workspace and no name |
| Clients.Client.ModelURL | next/model/client.cc:16-23 | the URL is "/api/v9/workspaces/", the decimal workspace ID and "/ClientModels" |
| Clients.Client.String | next/model/client.cc:25-34 | the text starts with "ID=" and holds " name=" followed by the name |
| Clients.Client.SaveToJSON | next/model/client.cc:60-71 | the members are exactly "name", "wid", "guid", "ui_modified_at" and, when the client has a server ID, "id"; they carry the escaped name, the workspace, the GUID, the UI modification time and the ID |
| Clients.Client.SetName | next/model/client.cc:36-42 | the name is stored, dirty exactly when it changed |
| Clients.Client.SetWID | next/model/client.cc:44-50 | the workspace ID is stored, dirty exactly when it changed |
| Clients.Client.LoadFromJSON | next/model/client.cc:52-58 | the ID, name and workspace are taken from the JSON, the client is dirty exactly when one of them changed, and loading succeeds |
| Clients.Client.ResolveErrorAsWritten | next/model/client.cc:73-85 | the repair as written: renaming appends " 1" and marks dirty, deleting marks the client deleted on the server, and an unresolved error changes nothing |
| Clients.Client.ResolveError | next/model/client.cc:73-85 | resolved exactly when the name is taken or the error is the duplicate-name error; a taken name gets " 1" appended, the duplicate is marked deleted on the server, anything else changes nothing |
| Clients.Client.ApplyBatchUpdateResult | next/model/base_model.cc:196-224 | for a client: a gone resource or one that cannot be created in its workspace is marked deleted and dirty with nothing else changed; any other error is repaired as ResolveError repairs it (a taken name gets " 1" appended, a duplicate-name client is marked deleted) and dropped, or else becomes the validation error with the client unchanged; a success clears the validation error and loads the reply, a missing body being malformed data that changes nothing; the dirty flag is stated in each case |
| Tasks.Task.constructor | next/model/task.h:18-23 | a new task has no name, workspace or project and is inactive |
| Tasks.Task.ModelURL | next/model/task.cc:65-67 | tasks live under "/api/v9/tasks" |
| Tasks.Task.String | next/model/task.cc:9-18 | the text starts with "ID=", holds " name=" and the name, and ends with the decimal project ID |
| Tasks.Task.SetPID | next/model/task.cc:20-26 | the project ID is stored, dirty exactly when it changed |
| Tasks.Task.SetWID | next/model/task.cc:28-34 | the workspace ID is stored, dirty exactly when it changed |
| Tasks.Task.SetName | next/model/task.cc:36-42 | the name is stored, dirty exactly when it changed |
| Tasks.Task.SetActive | next/model/task.cc:44-50 | the active flag is stored, dirty exactly when it changed |
| Tasks.Task.LoadFromJSON | next/model/task.cc:52-59 | the ID, name, project, workspace and active flag are taken from the JSON, dirty exactly when any of them changed |
| Tags.Tag.constructor | next/model/tag.h:16 | a new tag has no workspace and no name |
| Tags.Tag.ModelURL | next/model/tag.cc:49-51 | tags live under "/api/v9/tags" |
| Tags.Tag.String | next/model/tag.cc:11-20 | the text starts with "ID=", holds " name=" and the name, and ends with the GUID |
| Tags.Tag.SetWID | next/model/tag.cc:22-28 | the workspace ID is stored, dirty exactly when it changed |
| Tags.Tag.SetName | next/model/tag.cc:30-36 | the name is stored, dirty exactly when it changed |
| Tags.Tag.LoadFromJSON | next/model/tag.cc:38-43 | the ID, name and workspace are taken from the JSON, dirty exactly when any of them changed |
| Countries.Country.constructor | next/model/country.h:14-16 | a new country has no name and no code |
| Countries.Country.ModelURL | next/model/country.cc:58-60 | countries live under "/api/v9/countries" |
| Countries.Country.String | next/model/country.cc:19-28 | the text starts with "ID=", holds " name=" and the name, and ends with the GUID |
| Countries.Country.SetName | next/model/country.cc:30-36 | the name is stored, dirty exactly when it changed |
| Countries.Country.SetCountryCode | next/model/country.cc:38-44 | the country code is stored, dirty exactly when it changed |
| Countries.Country.LoadFromJSON | next/model/country.cc:46-52 | the ID, name and code are taken from the JSON, dirty exactly when any changed, and loading succeeds |
| Projects.Project.constructor | next/model/project.h:103-111 | a new project has every field zero, false or empty |
| Projects.Project.SetWID | next/model/project.h:42 | the workspace ID is stored, dirty exactly when it changed |
| Projects.Project.SetCID | next/model/project.h:47 | the client ID is stored, dirty exactly when it changed |
| Projects.Project.SetName | next/model/project.h:57 | the name is stored, dirty exactly when it changed |
| Projects.Project.SetClientGUID | next/model/project.h:52 | the client GUID is stored, dirty exactly when it changed |
| Projects.Project.SetClientName | next/model/project.h:85 | the client name is stored, dirty exactly when it changed |
| TimeEntries.SplitTags | next/model/time_entry.cc:331-344 | an empty tag string gives no tags; any other splits into at least one separator-free tag whose tab-join is the string |
| TimeEntries.TagsHashIgnoresOrder | next/model/time_entry.cc:429-441 | two entries whose tags are the same up to order have the same tag hash |
| TimeEntries.TagsRoundTrip | next/model/time_entry.cc:331-344 | setting the tab-joined form of separator-free tags gives back exactly those tags |
| TimeEntries.TagArray | next/model/time_entry.cc:571-583 | the tags are sent as an array holding each escaped tag name in order, empty when there are none |
| TimeEntries.NonEmptyTags | next/model/time_entry.cc:595-605 | the loaded tags are exactly the non-empty names of the list, never more of them |
| TimeEntries.StopAfterInput | next/model/time_entry.cc:298-304 | the kept stop is never before the typed one, and a stop not before the start is kept as typed |
| TimeEntries.TimeEntry.constructor | next/model/time_entry.h:21-35 | a new entry has every field zero, false or empty and no tags |
| TimeEntries.TimeEntry.RealDurationInSeconds | next/model/time_entry.cc:588-593 | a running entry whose duration is minus its start has run for now minus start; a finished one reports at least now |
| TimeEntries.TimeEntry.IsTracking | next/model/time_entry.h:148-151 | a negative duration; TimeEntries.TimeEntry.DiscardAt and Users.StopRunning stop exactly such entries |
| TimeEntries.TimeEntry.Tags | next/model/time_entry.cc:417-427 | the tag names joined by tabs; TimeEntries.TagsRoundTrip shows setting it back gives the names |
| TimeEntries.TimeEntry.TagsHash | next/model/time_entry.cc:429-441 | the sorted tag names joined by tabs; TimeEntries.TagsHashIgnoresOrder shows it ignores tag order |
| TimeEntries.TimeEntry.ModelURL | next/model/time_entry.cc:612-623 | the URL is the workspace's time entry collection, followed by "/" and the ID when the entry has one |
| TimeEntries.TimeEntry.CollectionURL | next/model/time_entry.cc:615-616 | the collection URL starts with "/api/v9/workspaces/" |
| TimeEntries.TimeEntry.BatchRelativeURL | next/model/base_model.cc:231-240 | an entry to be posted goes to its collection; any other to the collection followed by "/" and its ID once, which is its model URL |
| TimeEntries.TimeEntry.SaveToJSON | next/model/time_entry.cc:529-586 | the members are exactly the always-sent ones plus "id", "wid" and "stop" for those that are set; the optional ones carry the ID, the workspace and the formatted stop; the GUID, the project and task (null when unset), the duration, the tags, the description, start, billable, duronly, ui_modified_at and created_with are always sent with the entry's values |
| TimeEntries.TimeEntry.OtherFields | next/model/time_entry.cc:535-569 | the description, start, billable, duronly, modification time and origin are always sent, each with its value, the strings escaped |
| TimeEntries.TimeEntry.CoreFields | next/model/time_entry.cc:542-583 | the GUID, the project and task IDs or null, the duration and the tag array |
| TimeEntries.TimeEntry.BatchUpdateJSON | next/model/base_model.cc:256-271 | an entry with a GUID gives a batch request whose relative URL is the entry's batch URL; one without a GUID fails |
| TimeEntries.TimeEntry.SetLastStartAt | next/model/time_entry.cc:225-230 | the last start is stored without marking the entry dirty |
| TimeEntries.TimeEntry.SetDurOnly | next/model/time_entry.cc:232-238 | the duration-only flag is stored, dirty exactly when it changed |
| TimeEntries.TimeEntry.SetStart | next/model/time_entry.cc:240-246 | the start is stored, dirty exactly when it changed |
| TimeEntries.TimeEntry.SetStartString | next/model/time_entry.cc:385-388 | the parsed start is stored, dirty exactly when it changed |
| TimeEntries.TimeEntry.SetStop | next/model/time_entry.cc:248-254 | the stop is stored, dirty exactly when it changed |
| TimeEntries.TimeEntry.SetStopString | next/model/time_entry.cc:265-268 | the parsed stop is stored, dirty exactly when it changed |
| TimeEntries.TimeEntry.SetDescription | next/model/time_entry.cc:256-263 | the description becomes the trimmed value, dirty exactly when that differs from the old one |
| TimeEntries.TimeEntry.SetCreatedWith | next/model/time_entry.cc:270-276 | the origin is stored, dirty exactly when it changed |
| TimeEntries.TimeEntry.SetBillable | next/model/time_entry.cc:278-284 | the billable flag is stored, dirty exactly when it changed |
| TimeEntries.TimeEntry.SetWID | next/model/time_entry.cc:286-292 | the workspace ID is stored, dirty exactly when it changed |
| TimeEntries.TimeEntry.SetPID | next/model/time_entry.cc:347-353 | the project ID is stored, dirty exactly when it changed |
| TimeEntries.TimeEntry.SetTID | next/model/time_entry.cc:321-327 | the task ID is stored, dirty exactly when it changed |
| TimeEntries.TimeEntry.SetDurationInSeconds | next/model/time_entry.cc:355-361 | the duration is stored, dirty exactly when it changed |
| TimeEntries.TimeEntry.SetProjectGUID | next/model/time_entry.cc:409-415 | the project GUID is stored, dirty exactly when it changed |
| TimeEntries.TimeEntry.SetTags | next/model/time_entry.cc:331-344 | afterwards the tab-joined tags are the given string; an unchanged string keeps the tags and the dirty flag, a changed one replaces the tags by its split and marks the entry dirty |
| TimeEntries.TimeEntry.LoadTagsFromJSON | next/model/time_entry.cc:595-605 | the loop keeps the non-empty tags of the list, in order |
| TimeEntries.TimeEntry.ResolveError | next/model/time_entry.cc:43-88 | resolved exactly for the time errors when start and stop are set and for the access, premium and created-with errors; each repair is stated: a cut duration, a start moved back, a stop moved forward, cleared IDs, billable off |
| TimeEntries.TimeEntry.ApplyBatchUpdateResult | next/model/base_model.cc:196-224 | for a time entry: a gone entry is marked deleted; on an error the entry is repaired as ResolveError repairs it (the cut duration and moved start or stop, the cleared relations, billable off) and nothing else of its data changes, a repairable error counts as success and another becomes the validation error; on success the validation error is cleared, a missing body is malformed data and changes no data, and a body is loaded as LoadFromJSON loads it (the ID always, the rest unless stale); in every branch the entry is dirty exactly when it was, or a field or the validation error changed |
| TimeEntries.TimeEntry.DiscardAt | next/model/time_entry.cc:166-193 | an entry that is not running, a zero time or a time before the start changes nothing; otherwise the entry stops at that time with duration time minus start and is stamped as modified |
| TimeEntries.TimeEntry.StopTracking | next/model/time_entry.cc:195-198 | stopping at the current time is discarding at it |
| TimeEntries.TimeEntry.SetStopUserInput | next/model/time_entry.cc:294-319 | the stop becomes the typed time, one day later when before the start; a stop still before the start ends the edit; otherwise a finished entry's duration is stop minus start and a changed entry is cleared of its error and stamped |
| TimeEntries.TimeEntry.SetStartUserInput | next/model/time_entry.cc:363-383 | the start becomes the typed time; a running entry's duration is minus the start; a finished one keeps its stop and gets the gap as duration when asked and possible, otherwise moves its stop by its duration; a changed entry is cleared and stamped |
| TimeEntries.TimeEntry.SetDurationUserInput | next/model/time_entry.cc:390-407 | a running entry restarts so that it has run that long now; a finished one gets that duration and a stop that far after its start; a changed entry is cleared and stamped |
| TimeEntries.TimeEntry.LoadAttributes | next/model/time_entry.cc:492-516 | tags and origin are taken when present, the description trimmed, and missing relation IDs become 0; dirty exactly when origin, description or a relation changed (the tag list is stored without dirtying) |
| TimeEntries.TimeEntry.LoadTimes | next/model/time_entry.cc:517-525 | start, stop, duration and flags are taken from the JSON, and the entry is marked in sync and not modified in the UI; dirty exactly when a time, a flag or a sync time changed |
| TimeEntries.TimeEntry.LoadNewer | next/model/time_entry.cc:492-525 | data newer than the local copy replaces every field (tags and origin only when present, missing relation IDs as 0) and marks the entry in sync; dirty exactly when a loaded field other than the tag list changed |
| TimeEntries.TimeEntry.LoadFromJSON | next/model/time_entry.cc:463-527 | the server ID is always taken; data that is not newer than the local copy changes nothing else; newer data replaces every field; dirty exactly when the ID or some loaded field changed |
| TimeEntries.DoubledIdInBatchURL | next/model/time_entry.cc:612-623 | as written, for every entry with a server ID the batch URL is the corrected URL (its ModelURL) followed by "/" and the ID once more |
| TimeEntries.DoubledIdExample | next/model/time_entry.cc:612-623 | as written, an entry with ID 5 in workspace 1 is sent to ".../time_entries/5/5"; the corrected URL has the ID once |
| Users.KeyOf | next/model/user.cc:78-103 | the key compared for a project carries its workspace, client and name |
| Users.KeysOf | next/model/user.cc:74-77 | the keys of the project list, position by position |
| Users.InsertionScan | next/model/user.cc:74-112 | the position the scan picks from position i on lies between i and the end of the list |
| Users.InsertionIndex | next/model/user.cc:68-113 | the insertion position lies within the list or at its end |
| Users.ScanWithoutWorkspaceAppends | next/model/user.cc:104-112 | when no project from position i on shares the workspace and none was seen, the scan appends |
| Users.NoWorkspaceMatchAppends | next/model/user.cc:111-112 | a project whose workspace has no projects in the list is appended at the end |
| Users.ScanStaysInWorkspace | next/model/user.cc:74-112 | once the workspace has been seen or is still ahead, the scan stops right before or right after a project of that workspace |
| Users.LandsNextToItsWorkspace | next/model/user.cc:68-113 | a project whose workspace already has projects is inserted next to one of them, keeping each workspace's projects together |
| Users.Position | next/model/user.cc:265-275 | the first position of an entry in the list holds that entry and no earlier position does |
| Users.DeleteZombies | next/model/user.cc:578-594 | exactly the models with a server ID missing from the alive IDs are marked deleted on the server and dirty; models without an ID are left alone |
| Users.FindRunning | next/model/user.cc:265-275 | the result is null exactly when no entry is running; otherwise a running entry with no running entry before it |
| Users.Durations | next/model/user.cc:254-263 | the durations of the entries, position by position |
| Users.Stops | next/model/user.cc:254-263 | the stops of the entries, position by position |
| Users.Starts | next/model/user.cc:254-263 | the starts of the entries, position by position |
| Users.StopNext | next/model/user.cc:256-261 | stopping the first running entry keeps the three loop facts: no running entry before it, the stopped list in list order, each stopped entry stopped at now |
| Users.NextRunning | next/model/user.cc:261 | the search again finds the first running entry, or null when none remains |
| Users.StopAll | next/model/user.cc:254-263 | the loop as written, on the inputs where it ends (now set, no running entry started after now): afterwards no entry runs; exactly the entries that ran were stopped, at now, and returned in list order; the others are unchanged |
| Users.StopTurnAsWritten | next/model/user.cc:254-263 | as written, when the first running entry started after now or now is 0, a turn of the loop changes no entry and the next search returns the same entry, so the loop never ends |
| Users.StopOne | next/model/user.cc:256-261 | one turn of the corrected loop: the entry at the position is stopped when it can be, keeping the loop facts (stoppable entries before the position stopped, in list order, each at now) |
| Users.StopRunning | next/model/user.cc:254-263 | the corrected loop: an entry is stopped exactly when it was running, now is set and it started by now; every entry still running started after now (or now is 0); stopped entries are returned in list order, each stopped at now; the others are unchanged |
| Users.User.constructor | next/model/user.h:28-43 | a new user has no token, ID or defaults, records no timeline, stores start and stop times and has not loaded more |
| Users.User.ModelURL | next/model/user.cc:574-576 | the user lives at "/api/v9/me" |
| Users.User.String | next/model/user.cc:294-303 | the text starts with "ID=" and holds " api_token=" followed by the token |
| Users.User.ConfirmLoadedMore | next/model/user.h:175-177 | afterwards the user has loaded more |
| Users.User.HasLoadedMore | next/model/user.h:171-173 | the stored flag; Users.User.ConfirmLoadedMore sets it |
| Users.User.HasValidSinceDate | next/model/user.cc:277-292 | a missing since date is never valid; a set one is valid exactly when it is at most sixty days old |
| Users.User.SetFullname | next/model/user.cc:159-164 | the name is stored, dirty exactly when it changed |
| Users.User.SetTimeOfDayFormat | next/model/user.cc:166-172 | the format is stored, dirty exactly when it changed |
| Users.User.SetDurationFormat | next/model/user.cc:174-180 | the format is stored, dirty exactly when it changed |
| Users.User.SetOfflineData | next/model/user.cc:182-187 | the offline data is stored, dirty exactly when it changed |
| Users.User.SetStoreStartAndStopTime | next/model/user.cc:189-194 | the flag is stored, dirty exactly when it changed |
| Users.User.SetRecordTimeline | next/model/user.cc:196-201 | the flag is stored, dirty exactly when it changed |
| Users.User.SetEmail | next/model/user.cc:203-208 | the e-mail is stored, dirty exactly when it changed |
| Users.User.SetAPIToken | next/model/user.cc:210-214 | the token is stored without marking the user dirty |
| Users.User.SetSince | next/model/user.cc:216-221 | the since date is stored, dirty exactly when it changed |
| Users.User.SetDefaultWID | next/model/user.cc:223-228 | the default workspace is stored, dirty exactly when it changed |
| Users.User.SetDefaultPID | next/model/user.cc:230-235 | the default project is stored, dirty exactly when it changed |
| Users.User.SetDefaultTID | next/model/user.cc:237-242 | the default task is stored, dirty exactly when it changed |
| Users.User.SetCollapseEntries | next/model/user.cc:244-249 | the flag is stored, dirty exactly when it changed |
| Users.User.LoadUserFromJSON | next/model/user.cc:356-374 | an update without a user ID changes nothing; otherwise the ID, default workspace, token, e-mail, name, flags and formats are taken from it, and the user is dirty exactly when one of them other than the token changed |
| Users.User.LoadUserPreferencesFromJSON | next/model/user.cc:376-384 | the setting changes, and true is returned, exactly when the member is present and differs from the stored value |
| Users.User.HasPremiumWorkspaces | next/model/user.cc:133-144 | true exactly when some workspace of the user is premium |
| Users.User.CanAddProjects | next/model/user.cc:146-157 | true exactly when no workspace restricts project creation to admins |
| Users.User.CanSeeBillable | next/model/user.cc:559-568 | true exactly when the user has a premium workspace and the given workspace, if any, is premium |
| Users.User.AddProjectToList | next/model/user.cc:68-113 | the project is inserted at the scan's position and every other project keeps its relative order |
| Users.User.RunningTimeEntry | next/model/user.cc:265-275 | null exactly when no entry runs; otherwise the first running entry of the list |
| Users.User.Stop | next/model/user.cc:254-263 | the returned entries are exactly those that ran and could be stopped at now, in list order, each stopped at now; an entry still running started after now (or now is 0); the others keep their stop and duration; when now is set and no running entry started after it, no entry runs afterwards |
| Users.User.DeleteRelatedModelsWithWorkspace | next/model/user.cc:305-311 | exactly the clients, projects, tasks, time entries and tags of the workspace are marked deleted on the server and dirtied; every other model keeps both flags |
| Users.User.RemoveClientFromRelatedModels | next/model/user.cc:313-321 | every project of the client loses its client and no other project changes; exactly the models of the client's projects are dirtied, none for client ID 0 |
| Users.User.RemoveProjectFromRelatedModels | next/model/user.cc:323-326 | every task and time entry of the project loses its project and no other changes; exactly their models are dirtied, none for project ID 0 |
| Userdata.JoinedSplit | next/userdata.cpp:139-149 | the containers' lists spliced one after the other split at any container boundary into the two halves |
| Userdata.FlattenAround | next/userdata.cpp:139-149 | the spliced list is the containers before one container, that container, then the containers after it |
| Userdata.GuidsAppend | next/userdata.cpp:9-56 | the GUIDs of two model lists one after the other are the GUIDs of each, in order |
| Userdata.GuidsOfThree | next/userdata.cpp:9-56 | the same for three model lists |
| Userdata.FirstIndexPastMiss | next/userdata.cpp:9-56 | a value missing from the containers searched first is found at its first position in the next container, offset by the models before it |
| Userdata.FirstHitAfterMiss | next/userdata.cpp:9-56 | a GUID missing from the earlier containers and found at position k of one container is at the matching position of the whole list, naming the same model |
| Userdata.FirstHitInGroup | next/userdata.cpp:9-56 | when the earlier containers lack the GUID, the container that holds it returns the same model the search over all models returns |
| Userdata.SearchGroups | next/userdata.cpp:9-56 | searching the containers one by one returns the first model with the GUID over all models together, or an invalid handle |
| Userdata.NonEmptyRequests | next/userdata.cpp:129-137 | every request kept is non-empty and made by one of the models; every model's non-empty request is kept; there are no more requests than models |
| Userdata.NonEmptyRequestsAppend | next/userdata.cpp:139-149 | collecting over two lists one after the other gives the two collections one after the other |
| Userdata.RequestsPerGroup | next/userdata.cpp:139-149 | one collection per container, each the container's non-empty requests |
| Userdata.RequestsGroupedByContainer | next/userdata.cpp:139-149 | splicing the per-container collections gives the collection over all models in order |
| Userdata.JoinedRequests | next/userdata.cpp:139-149 | the collection over the first n containers is the splice of their first n collections |
| Userdata.CollectGroup | next/userdata.cpp:129-137 | the loop over one container returns exactly the container's non-empty requests in order |
| Userdata.KeyedAtAppend | next/userdata.cpp:153-166 | a model keyed by a workspace in two lists one after the other is keyed so in one of them, and back |
| Userdata.MarkDeletedWhere | next/userdata.cpp:154-160 | every model whose workspace ID matches is marked as deleted on the server and dirty; every other model keeps both flags |
| Userdata.UserData.constructor | next/userdata.h:26-28 | a new user data has every container empty and no "since" |
| Userdata.UserData.Groups | next/userdata.cpp:9-56 | the nine containers, in the order the lookup and the collection visit them |
| Userdata.UserData.ByGuid | next/userdata.cpp:9-56 | the first model with the GUID, searching tags, clients, projects, time entries, countries, workspaces, tasks, autotracker rules, timeline events in that order; valid exactly when some model has the GUID, and then it has that GUID |
| Userdata.UserData.CollectChanges | next/userdata.cpp:115-151 | the non-empty requests of every model, container by container in that order |
| Userdata.UserData.RelatedWids | next/userdata.cpp:153-166 | one workspace ID per client, project, task, time entry and tag, position by position |
| Userdata.UserData.RelatedKeyedAtIff | next/userdata.cpp:153-166 | a model carries the workspace ID in that list exactly when it is a client, project, task, time entry or tag of that workspace |
| Userdata.UserData.DeleteRelatedModelsWithWorkspace | next/userdata.cpp:153-166 | every client, project, task, time entry and tag of the workspace is marked as deleted on the server; every model of another workspace keeps its flags |
| Userdata.UserData.RelatedModelsCover | next/userdata.cpp:161-165 | every client, project, task, time entry and tag is among the models the deletion visits |
| Userdata.UserData.RemoveClientFromRelatedModels | next/userdata.cpp:168-174 | every project of the client loses its client ID; every other project keeps its client; a project's model is dirty afterwards exactly when it was, or it belongs to a project of the client and the ID is not 0 |
| Userdata.UserData.RemoveProjectFromRelatedModels | next/userdata.cpp:176-186 | every task and time entry of the project loses its project ID; every other keeps its project; a model is dirty afterwards exactly when it was, or it belongs to a task or entry of the project and the ID is not 0 |
| Userdata.UserData.RemoveTaskFromRelatedModels | next/userdata.cpp:188-194 | every time entry of the task loses its task ID; every other keeps its task; an entry's model is dirty afterwards exactly when it was, or it belongs to an entry of the task and the ID is not 0 |
| Userdata.UserData.ClearTags | next/userdata.h:58-62 | the tag list is empty afterwards |
| Userdata.UserData.ClearClients | next/userdata.h:58-62 | the client list is empty afterwards |
| Userdata.UserData.ClearProjects | next/userdata.h:58-62 | the project list is empty afterwards |
| Userdata.UserData.ClearTimeEntries | next/userdata.h:58-62 | the time entry list is empty afterwards |
| Userdata.UserData.LoadTags | next/userdata.h:64-74 | a value that is not an array leaves no tags and reports malformed data; an array leaves one new tag per element, in order, with its ID, name and workspace |
| Userdata.UserData.LoadClients | next/userdata.h:64-74 | the same for clients |
| Userdata.UserData.LoadProjects | next/userdata.h:64-74 | the same for projects: one new project per element |
| Userdata.UserData.LoadTimeEntries | next/userdata.h:64-74 | the same for time entries, each with the element's ID and, unless the element is stale, its times, duration and project |
| Userdata.UserData.LoadAll | next/userdata.cpp:86-113 | records "since", then loads tags, clients, projects and time entries in order, stopping at the first malformed list; the lists after it are untouched and the error is malformed data exactly when one of the four is not an array |
| WindowSettings.Settings.constructor | next/settings.h:21-24 | a new settings object has the window at (100, 100), 300 high and 100 wide |
| WindowSettings.Settings.WindowX | next/settings.cpp:8-10 | the stored x position; WindowSettings.StoreThenRead reads back what was stored |
| WindowSettings.Settings.WindowY | next/settings.cpp:16-18 | the stored y position |
| WindowSettings.Settings.WindowHeight | next/settings.cpp:24-26 | the stored height |
| WindowSettings.Settings.WindowWidth | next/settings.cpp:32-34 | the stored width |
| WindowSettings.Settings.SetWindowX | next/settings.cpp:12-14 | the getter returns the value afterwards and no other setting changes |
| WindowSettings.Settings.SetWindowY | next/settings.cpp:20-22 | the getter returns the value afterwards and no other setting changes |
| WindowSettings.Settings.SetWindowHeight | next/settings.cpp:28-30 | the getter returns the value afterwards and no other setting changes |
| WindowSettings.Settings.SetWindowWidth | next/settings.cpp:36-38 | the getter returns the value afterwards and no other setting changes |
| WindowSettings.StoredHeight | next/legacy/toggl_api_settings.cc:162-163 | a positive requested height is stored; any other request keeps the current height |
| WindowSettings.StoredWidth | next/legacy/toggl_api_settings.cc:164-165 | any requested width but zero is stored, negative ones included; zero keeps the current width |
| WindowSettings.SetWindowSettings | next/legacy/toggl_api_settings.cc:152-168 | with a context the position is stored and the size as far as the request is honoured; without one nothing changes; success is reported either way |
| WindowSettings.ReadWindowSettings | next/legacy/toggl_api_settings.cc:170-186 | exactly the outputs whose pointer is given receive the stored value, and only with a context; success is always reported |
| WindowSettings.StoreThenRead | next/legacy/toggl_api_settings.cc:152-186 | storing then reading back gives the requested position, and the requested size where it was honoured, the old size otherwise |
| WindowSettings.SetUnsupportedSetting | next/legacy/toggl_api_settings.cc:9-150 | the other setting functions report failure |
| ApiTools.TruncDiv | next/legacy/toggl_api_tools.cc:274-280 | the quotient of C++ integer division: the remainder has the sign of the dividend and is smaller than the divisor |
| ApiTools.ToUint64 | next/legacy/toggl_api_tools.cc:347-348 | the value stored in a 64-bit unsigned field: congruent to the input modulo 2^64, and the input itself when it fits |
| ApiTools.ToUint32 | next/legacy/toggl_api_tools.cc:285-317 | the value of a cast to unsigned int: congruent modulo 2^32, and the input itself when it fits |
| ApiTools.ToInt32 | next/legacy/toggl_api_tools.cc:286 | the value of a cast to int: within the signed 32-bit range, congruent modulo 2^32, and the input itself when it fits |
| ApiTools.RoundedStart | next/legacy/toggl_api_tools.cc:271-276 | corrected, in 64-bit arithmetic: for a start that is not negative, the position in its quarter hour divided by 9, between 0 and 99; for a negative start, between -99 and 0 |
| ApiTools.RoundedStartAsWritten | next/legacy/toggl_api_tools.cc:271-276 | as written, with the boundary wrapped to a 32-bit int: equal to the corrected margin for starts from -2^31 up to 2038-01-19 03:15 UTC |
| ApiTools.RoundedEnd | next/legacy/toggl_api_tools.cc:278-280 | corrected, in 64-bit arithmetic: for a stop that is not negative, what is left of its quarter hour divided by 9, between 0 and 100, and 100 exactly on a quarter-hour boundary |
| ApiTools.RoundedEndAsWritten | next/legacy/toggl_api_tools.cc:278-280 | as written, with the boundary and the added quarter wrapped to a 32-bit int: equal to the corrected margin for stops from -2^31 up to 2038-01-19 03:00 UTC |
| ApiTools.MarginsOverflowIn2038 | next/legacy/toggl_api_tools.cc:271-280 | as written, a start at 2038-01-19 03:15 UTC gets a top margin of 477218588 instead of 0, and a stop at 03:00 a bottom margin of -477218488 instead of 100 |
| ApiTools.RoundedStartMonotoneInQuarter | next/legacy/toggl_api_tools.cc:271-276 | within one quarter hour a later start gets a margin at least as large |
| ApiTools.RoundedStartPeriodic | next/legacy/toggl_api_tools.cc:271-276 | the top margin depends only on the position within the quarter hour |
| ApiTools.MarginsFitTheView | next/legacy/toggl_api_tools.cc:347-348 | for times that are not negative the margins are stored in the view unchanged |
| ApiTools.ViewItem | next/legacy/toggl_api_tools.cc:282-348 | the tags are null exactly when the entry has none, otherwise its tags; each label is set exactly when its model exists (client label only with a project); the margins are the corrected rounded ones |
| ApiTools.TimeEntryViewItemInit | next/legacy/toggl_api_tools.cc:261-354 | projects may be added when the entry's workspace lets the user (admin, or not admin-only), or without a workspace when no workspace of the user is admin-only; billable is shown only for a premium workspace of a user with one; the rest is the view item of the entry |
| ApiTools.Reversed | next/legacy/toggl_api_tools.cc:219-241 | the same length, item i being the item counted i from the end |
| ApiTools.ReversedTwice | next/legacy/toggl_api_tools.cc:219-241 | reversing twice gives the list back |
| ApiTools.ReversedSnoc | next/legacy/toggl_api_tools.cc:237-238 | prepending the next item to the reversed prefix reverses the longer prefix |
| ApiTools.CountryListInit | next/legacy/toggl_api_tools.cc:219-241 | the list holds every country, same length, last one first |
| ApiTools.GenericToViewItemList | next/legacy/toggl_api_tools.cc:105-118 | the list is always empty (null) |
| Databases.ClampedMinutes | next/db/database.cc:769-775 | a minute setting stored is at least one, and any value of one or more is stored as given |
| Databases.ClampedMinutesIdempotent | next/db/database.cc:836-861 | clamping a clamped value changes nothing |
| Databases.Truncated | next/db/database.cc:1964-1972 | at most 300 characters and a prefix of the input; the input itself when it fits, exactly 300 characters when it does not |
| Databases.Unmarked | next/db/database.cc:1724-1733 | the purge keeps no more models than the list had |
| Databases.UnmarkedMembers | next/db/database.cc:1724-1733 | the purge keeps exactly the models that are not marked as deleted on the server |
| Databases.DeleteChanges | next/db/database.cc:1705-1714 | no more delete changes than models |
| Databases.DeleteChangesMembers | next/db/database.cc:1705-1714 | every marked model is reported as a delete of that model, and only delete changes of the list's model name are reported |
| Databases.MarkedLocalIds | next/db/database.cc:309-337 | the rows removed are those of the marked models that were ever stored; local id 0 removes nothing |
| Databases.Database.SetSettingsValue | next/db/database.cc:794-811 | the named column of the settings row takes the value and no other column changes |
| Databases.Database.SetSettingsIdleMinutes | next/db/database.cc:769-775 | the idle minutes are stored clamped to at least one |
| Databases.Database.SetSettingsReminderMinutes | next/db/database.cc:836-843 | the reminder minutes are stored clamped to at least one |
| Databases.Database.SetSettingsPomodoroMinutes | next/db/database.cc:845-852 | the pomodoro minutes are stored clamped to at least one |
| Databases.Database.SetSettingsPomodoroBreakMinutes | next/db/database.cc:854-861 | the pomodoro break minutes are stored clamped to at least one |
| Databases.Database.SaveUpdateChannel | next/db/database.cc:960-970 | succeeds exactly for "stable", "beta" and "dev", storing it; anything else is an invalid update channel and stores nothing |
| Databases.Database.DeleteFromTable | next/db/database.cc:309-337 | an empty table name is a missing argument; local id 0 deletes nothing; otherwise exactly the rows with that local id leave that table and no other table changes |
| Databases.Database.DeleteAllFromTableByUID | next/db/database.cc:188-209 | without a user or a table name it is a missing argument and nothing changes; otherwise exactly the user's rows leave that table |
| Databases.Database.ClearCurrentAPIToken | next/db/database.cc:3160-3172 | no session is left |
| Databases.Database.SetCurrentAPIToken | next/db/database.cc:3174-3200 | without a token or a user it is a missing argument and the sessions stay; otherwise the new session is the only one |
| Databases.Database.Execute | next/db/database.cc:3381-3400 | an empty statement is a missing argument and runs nothing; any other statement runs once |
| Databases.Database.Migrate | next/db/database.cc:3332-3379 | a migration without a name or SQL is a missing argument; one already recorded runs nothing; otherwise its SQL runs once and its name is recorded |
| Databases.Database.MigrateTwice | next/db/database.cc:3332-3379 | running a migration twice gives the same result both times and runs its SQL at most once |
| Databases.Database.PurgeDeleted | next/db/database.cc:1724-1733 | the models marked as deleted on the server leave the list and the others keep their order |
| Databases.Database.SaveOne | next/db/database.cc:1704-1722 | a marked model loses its row and is reported as deleted, or the missing table name is reported; any other model takes the user id, becomes dirty if that changed it, and is saved |
| Databases.Database.SavedUid | next/db/database.cc:1704-1722 | after the save an unmarked model carries the user id and a marked one keeps its own |
| Databases.Database.SavedDirty | next/model/base_model.cc:142-148 | after the save an unmarked model is dirty when it was or when its user id changed; a marked one keeps its flag |
| Databases.Database.RowsWithout | next/db/database.cc:309-337 | a subset of the rows, keeping exactly those whose local id is not removed |
| Databases.Database.SaveEach | next/db/database.cc:1704-1722 | the loop fails exactly when a marked model meets an empty table name; on success every marked model is reported and its row removed, every other model is saved for the user, in list order |
| Databases.Database.SaveRelatedModels | next/db/database.cc:1694-1736 | a missing user is a missing argument and changes nothing; on success the deletes are reported and applied, the other models are saved for the user, and the marked models leave the list in order |
| Databases.Database.SaveTimelineEvent | next/db/database.cc:1948-2099 | the event gets a GUID; one that needs no save is left alone; otherwise title and filename are cut to 300 characters, an event without user, start or end is refused, and the event is updated (reported as deleted when it has a deletion time) or inserted, and is no longer dirty |
| Databases.Database.TruncateStrings | next/db/database.cc:1966-1972 | title and filename are cut to 300 characters, and the event is dirty when a cut happened |
| Databases.Database.StoreTimelineEvent | next/db/database.cc:1974-2090 | an event without user, start or end is refused and nothing changes; otherwise its row is updated or inserted under the new row id, the matching change is reported and it is no longer dirty |
| Databases.Database.SaveTimelineEventTwice | next/db/database.cc:1956-1962 | saving an event right after a successful save succeeds and reports nothing new |
| Databases.Database.SaveUser | next/db/database.cc:2807-2945 | a logged-out user is not saved; a user without e-mail or API token is refused; otherwise a user never stored or dirty is inserted or updated, reported, and no longer dirty |

## Left out

- Locking: every `recursive_mutex`, `scoped_lock` and `locked<T>` handle is left out, because the model is single-threaded. A `locked` handle is kept only as "holds a model or not".
- I/O and outside services. Logging, `dumpAll` (console output), the SQL session and its failures, exceptions and transactions are left out. Every statement is taken to succeed, and the row id SQLite returns for an insert is a parameter.
- Clocks, randomness and parsing become parameters: the current time, generated GUIDs, ISO 8601 parsing and formatting, JSON string escaping, and the formatter's task-and-project label. A parsed JSON value is a plain datatype; a value that is not an array is `None`.
- Error texts: the model-layer error header that numbers the codes and holds their texts is not part of this model. The text table is a parameter of `Errors.Message`, and the codes are an enumeration in a fixed order.
- Headers not part of this model: `timeline_event.h`, `workspace.h`, `project.cc`, the `ProtectedContainer` class and `const.h`.
  - The timeline event and workspace constructors take every field to start at zero, false or empty.
  - Projects keep only the fields other components use, and their setters follow the change-then-dirty rule of every model. `FullName` is a stored value, and `Project::LoadFromJSON` is modelled only as "one project per element".
  - The container is modelled on `ProtectedModel` and the behaviour the container tests expect.
  - The longest allowed time-entry duration is a parameter of `TimeEntries.TimeEntry.ResolveError`.
- User operations left out:
  - `CreateProject` and `DateDuration`: they depend on the project source and the formatter, which are not part of this model.
  - `UserID`, `LoginToken`, `UpdateJSON` and `LoadUserAndRelatedDataFromJSONString`: JSON text parsing and building.
  - `generateKey`, `SetAPITokenFromOfflineData`, `EnableOfflineLogin`: encryption.
  - The formatter's global copies of the time and duration formats.
- The user's `RemoveTaskFromRelatedModels` is declared in `user.h` but defined nowhere in `user.cc`, so it is not modelled. `Userdata.UserData.RemoveTaskFromRelatedModels` models the version that is defined.
- Users.StopAll: requires `now != 0` and that no running entry started after `now`. In those cases `DiscardAt` refuses, so the loop as written finds the same running entry again and never ends (see Findings); `Users.User.Stop` uses the corrected loop instead.
- Time-entry operations left out:
  - `IsToday`, `StartString` and `StopString`: calendar formatting.
  - `String()`.
  - The relation getters (`Workspace()`, `Project()`, `Task()`, `User()`): pointer lookups through the user data. The view takes their results as arguments.
- `userdata.h` declares a class different from the one `userdata.cpp` uses. It has four lists and a `load<T>`/`clear<T>` of its own. The model has one user data with the nine containers of `userdata.cpp`, and its four load routines follow `load<T>`.
- Userdata.UserData.LoadAll: the `with_user` branch is left out, because it re-creates the user from JSON; the user is modelled in `user.dfy`. The overload that parses a JSON string is left out as text parsing. "since" is a parameter.
- View layer:
  - Fields the formatter renders (duration, start and end strings, date header and duration) are left out.
  - The C linked lists are sequences.
  - The autocomplete, autotracker, help-article, settings and timeline view builders, `country_view_item_init` (JSON reading) and every `*_clear` routine (freeing memory) are left out.
- ApiTools.RoundedStartAsWritten: signed overflow of `int` is undefined in C++; the model takes the usual two's complement wrap-around.
- ApiTools.RoundedEndAsWritten: the same.
- Window settings: the other window, mini-timer and keyboard getters and setters of the C API are stubs that store nothing. They are not modelled, except that every unsupported `toggl_set_settings_*` reports failure.
- The other routines of `database.cc` (loaders, the other settings, the `saveModel` of each other model type, deletes by date, the GUID and analytics helpers) are left out. The policies named above are what this model covers.
- Databases.Database.SaveRelatedModels:
  - It requires a list without repeated models, as a container never holds one model twice.
  - It records every other model in `saved` instead of modelling the `saveModel` of each type and the changes that `saveModel` appends.
  - On an error, it states what happened to the models visited before the failure only as far as their user id and dirty flag go.
- Databases.Database.SaveUser: the `with_related_data` part (saving the related lists through `saveRelatedModels`) is left out. The `!ID` guard after the logged-out check can never fire, so it is not modelled.
- Databases.Database.SaveTimelineEvent: string lengths are counted in characters, where the source counts bytes.
- Databases.Truncated: the same holds for the 300-character cut.
- Widths: the `Poco::Int64`/`UInt64` IDs, times and durations are unbounded `int`/`nat`. Nothing in the core relies on 64-bit wrap-around; only the casts the view and the margins make are modelled with their widths.
- Strings.LowerChar: folds ASCII letters only, where `Poco::UTF8::toLower` (next/model/autotracker.cc:13,17) also folds other letters. An event named "Über.txt" matches the term "über" in the source, but not in `Autotracker` matching.
- Strings.ToLower: the same ASCII-only folding, character by character.
- Strings.ICompare: folds ASCII letters only, where `Poco::UTF8::icompare` (next/model/user.cc:83-90) folds Unicode. Projects named "Éclair" and "éclair" compare equal in the source, but not in `Users.InsertionScan` and `Users.User.AddProjectToList`.
- TimeEntries.TimeEntry.ResolveError: the task branch (next/model/time_entry.cc:75-78) can never run, because its test (next/model/time_entry.cc:146-148) recognises the same code as the project branch before it. The model proves the branch dead. It does not guess which code the branch was meant to test.

## Findings

| source | as written | input that shows it | evidently intended | confidence | as-written member | corrected member |
|---|---|---|---|---|---|---|
| next/model/client.cc:79-83 | When the name is not taken, any error other than "client name already exists" marks the client as deleted on the server. | A client whose update fails with "backend is down" (HTTP 5xx) is removed; a client the server reports as a duplicate name stays unresolved (Clients.OutageDeletesClientAsWritten, Clients.ResolutionsDisagree). | The guard is inverted. Its own comment says it removes the duplicate, so the client reported as a duplicate name is removed and any other error is left unresolved. | not executed | Clients.Client.ResolveErrorAsWritten | Clients.Client.ResolveError |
| next/model/time_entry.cc:612-623 | The time entry's `ModelURL` already ends in `/<id>` once the entry has a server ID. `batchUpdateRelativeURL` (next/model/base_model.cc:231-240) appends `/<id>` again for every request that is not a POST. | An entry with workspace 1 and ID 5: the batch URL of its update is `/api/v9/workspaces/1/time_entries/5/5`. | The ID appears once: `/api/v9/workspaces/1/time_entries/5`. | not executed | TimeEntries.DoubledIdInBatchURL | TimeEntries.TimeEntry.BatchRelativeURL |
| next/legacy/toggl_api_tools.cc:271-280 | The quarter-hour boundary is `(int)(start / 900) * 900` in 32-bit `int`, and the bottom margin adds another 900 there. The product overflows once the start reaches 2147483700. | A start at 2038-01-19 03:15 UTC (2147483700): the boundary wraps to -2147483596, so the top margin is 477218588 hundredths instead of 0. A stop at 03:00 (2147482800) gets a bottom margin of -477218488 instead of 100 (ApiTools.MarginsOverflowIn2038). | The boundary is computed in the 64-bit type of the times, so the margins stay within 0-99 and 0-100 for every time that is not negative. | not executed | ApiTools.RoundedStartAsWritten | ApiTools.RoundedStart |
| next/model/user.cc:254-263 | `Stop` repeats "find the first running entry, stop it" until none runs. `DiscardAt` (next/model/time_entry.cc:173-181) refuses a time of 0 or one before the entry's start and changes nothing. | A running entry whose start is after the current time, as a clock moved back leaves it: every search finds it again and the loop never ends (Users.StopTurnAsWritten). | Each running entry is tried once; one that cannot be stopped stays running. | not executed | Users.StopTurnAsWritten | Users.StopRunning |
