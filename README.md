# Article wizard and learning pages: a Dafny model

This project models the decision logic of a Next.js learning platform's front end. Rendering, the network and timers are replaced by inputs; the rest is stated as Dafny and proved.

- **The New Article wizard** (`articles/new/page.tsx`) is a class over the wizard's fields.
  - It covers the step counter with its Next/Previous bounds and the split of uploads into ungrouped files and groups.
  - It covers the four keyed registries (metadata, metadata validity, skill relevance, skill complexity), which are updated by upsert, and the relevance gate on Next.
  - It covers the processing spinner and badge on each card, and the submission assembler that flattens groups into one record per file.
- **The wizard's parts:**
  - the drop zone that uploads PDFs;
  - the dialog that picks files to group;
  - the single-file and group metadata forms, with their schema, default values, the once-only analysis prefill (and the group form's repeated one), cover-image checks and list toggles;
  - the relevance and complexity forms, which write one skill across all seven job slices of a 133-cell array;
  - the review page's name lookups and fallbacks, the step counter and the validity badge.
- **The file-processing poller** (`utils/api/fileUploadPoll.ts`) is a state machine driven by a sequence of events (timer fired, response arrived, cancel). It is wrapped by a tracker class that keeps the per-file status map and the cancel functions.
- **The chat stream reader** (`utils/api/chats.ts`) cuts chunks into lines and dispatches each `data: ` line to the chat's callbacks. It follows a simplified subset of the `text/event-stream` format of the WHATWG HTML Living Standard, section 9.2. The key property is that callbacks do not depend on where the chunks were cut.
- **The smaller pages:**
  - the edit-article form and its five ordered PUT requests;
  - the assessment overview and the competency dialog, with their rounded means;
  - the assessment questionnaire;
  - the library's endpoint table and title filter;
  - the sidebar's tag slugs;
  - the navigation's active-link test.

Each source file is one module, and each component whose state changes in place is a class whose methods state the whole new state. `Seqs`, `Strings`, `Wrappers` and `Registry` hold shared sequence, string, option and keyed-list definitions. `ArticleModels` and `ArticleConsts` hold the data types and the skills table.

In these places the code does something other than what it evidently intends, and the model follows the code:
- A grouped file's own page count is not copied into its submission record, and a group record carries none. Every grouped file is therefore sent with duration 1 (`NewArticlePage.GroupedDurationIsOne`).
- Removing or grouping files leaves their validity entries behind. Because Next compares list lengths, stale entries can block the metadata step (`NewArticlePage.RemovedFileBlocksMetadataStep`).
- Ids picked in the metadata forms are not checked against the lookup lists.
- Three more departures are listed under Findings: cancelling a poll does not silence a request already in flight, a batch upload with one new name re-adds the old ones, and a retried questionnaire resends its first answers. For each, the model states the code as written and a corrected version, and proves the difference. The poll loop, the tracker hook and the tracker class exist in both versions; the wizard and the tracker class use the corrected ones.

## Model

| member | source | states |
|---|---|---|
| ArticleConsts.TableSizes | utils/article_consts.ts:1-20 | The table has four competency groups with 6, 5, 4 and 4 skills: 19 skills in all, so a vector over 7 job titles has 133 cells. |
| ArticleConsts.TitlesDistinct | utils/article_consts.ts:1-20 | The group titles, which the forms use as list keys, are pairwise distinct. |
| ArticleConsts.GroupsNonEmpty | utils/article_consts.ts:1-20 | Every competency group lists at least one skill. |
| SkillIndex.GetSkillIndex | articles/_components/newArticleForm/CompetencyRelevanceForm.tsx:21-27 | The loop returns the number of skills in the earlier groups plus the skill's own index. |
| SkillIndex.FlatIndex | articles/_components/newArticleForm/CompetencyRelevanceForm.tsx:21-27 | A skill's flat position lies inside one 19-cell job block. |
| SkillIndex.FlatIndexInjective | articles/_components/newArticleForm/CompetencyRelevanceForm.tsx:21-27 | Two different skills never share a flat position. |
| SkillIndex.FlatIndexOnto | articles/_components/newArticleForm/CompetencyRelevanceForm.tsx:21-27 | Every position of a job block belongs to some skill. |
| SkillIndex.WriteJobsCells | articles/_components/newArticleForm/CompetencyRelevanceForm.tsx:34-38 | After the writes for the first jobs, exactly the cells `index + j * 19` of those jobs hold the new value; every other cell is unchanged. |
| SkillIndex.WriteSkillCells | articles/_components/newArticleForm/CompetencyRelevanceForm.tsx:30-41 | Setting one skill changes exactly the cells `k` with `k % 19 == index`, in all seven job blocks. |
| SkillIndex.WriteGroupCells | articles/_components/newArticleForm/CompetencyRelevanceForm.tsx:44-56 | Toggling a group changes exactly the cells of that group's skills, in every job block. |
| SkillIndex.WriteSkillWithin | articles/_components/newArticleForm/CompetencyRelevanceForm.tsx:37 | Writing a value in range keeps every cell of the vector in range. |
| SkillIndex.WriteGroupWithin | articles/_components/newArticleForm/CompetencyRelevanceForm.tsx:51 | A group toggle keeps every cell of the vector in range. |
| CompetencyRelevanceForm.WriteSkillInPlace | articles/_components/newArticleForm/CompetencyRelevanceForm.tsx:33-38 | The in-place loop over the seven jobs leaves the array equal to the single-skill write of the old contents. |
| CompetencyRelevanceForm.SkillChangeShows | articles/_components/newArticleForm/CompetencyRelevanceForm.tsx:95-98 | After ticking or unticking a skill, its checkbox shows the new state. |
| CompetencyRelevanceForm.GroupToggleShows | articles/_components/newArticleForm/CompetencyRelevanceForm.tsx:80-83 | After toggling a group, the group checkbox shows the new state. |
| CompetencyRelevanceForm.GroupToggleSetsGroup | articles/_components/newArticleForm/CompetencyRelevanceForm.tsx:44-56 | After a group toggle, every skill of the group holds the new value. |
| CompetencyRelevanceForm.GroupToggleKeepsOtherGroups | articles/_components/newArticleForm/CompetencyRelevanceForm.tsx:44-56 | A group toggle leaves the skills of the other groups unchanged. |
| CompetencyRelevanceForm.RelevanceForm.constructor | articles/_components/newArticleForm/CompetencyRelevanceForm.tsx:18 | The vector starts with 133 cells, all 0. |
| CompetencyRelevanceForm.RelevanceForm.HandleSkillChange | articles/_components/newArticleForm/CompetencyRelevanceForm.tsx:30-41 | The new vector is the single-skill write of 1 or 0, and it stays a 0/1 vector. |
| CompetencyRelevanceForm.RelevanceForm.ToggleGroupSkills | articles/_components/newArticleForm/CompetencyRelevanceForm.tsx:44-56 | The new vector is the group write of 1 or 0, and it stays a 0/1 vector. |
| CompetencyRelevanceForm.RelevanceForm.AreAllGroupSkillsSelected | articles/_components/newArticleForm/CompetencyRelevanceForm.tsx:59-65 | The answer is true exactly when no skill of the group has a zero job-0 cell. |
| ComplexityLevelForm.DisplayedValue | articles/_components/newArticleForm/ComplexityLevelForm.tsx:86 | A nonzero cell is shown as it is; a missing or zero cell is shown as 1, never as 0. |
| ComplexityLevelForm.ShownIffTicked | articles/_components/newArticleForm/ComplexityLevelForm.tsx:61-79 | For a full 0/1 relevance vector, a skill's slider is shown exactly when the skill was ticked in the relevance form. |
| ComplexityLevelForm.ShortVectorShowsUnticked | articles/_components/newArticleForm/ComplexityLevelForm.tsx:63-79 | With a relevance vector shorter than 133 cells, a group can show a skill that was never ticked, because a missing cell is not `=== 0`. |
| ComplexityLevelForm.DisplayedInitialValue | articles/_components/newArticleForm/ComplexityLevelForm.tsx:24-26 | A slider that was never moved shows 1. |
| ComplexityLevelForm.ComplexityForm.constructor | articles/_components/newArticleForm/ComplexityLevelForm.tsx:24-26 | The vector starts with 133 cells, all 1, inside the slider range 1..4. |
| ComplexityLevelForm.ComplexityForm.HandleComplexityChange | articles/_components/newArticleForm/ComplexityLevelForm.tsx:38-49 | The new vector is the single-skill write of the slider value; a value in 1..4 keeps the vector in 1..4. |
| ArticleMetadataForm.DefaultShared | articles/_components/newArticleForm/ArticleMetadataForm.tsx:92-107 | The shared defaults (empty ids, empty lists) never satisfy the shared rules. |
| ArticleMetadataForm.DefaultValues | articles/_components/newArticleForm/ArticleMetadataForm.tsx:91-111 | The title starts as the file name and the page count as 1, and the default values never satisfy `articleSchema`. |
| ArticleMetadataForm.ReportedValidity | articles/_components/newArticleForm/ArticleMetadataForm.tsx:126-130 | The form reports nothing while it is not dirty, and its validity once it is dirty, in both directions. |
| ArticleMetadataForm.ApplyAnalysis | articles/_components/newArticleForm/ArticleMetadataForm.tsx:118-120 | The prefill leaves the cover image and the shared fields unchanged. |
| ArticleMetadataForm.ReadyAnalysis | articles/_components/newArticleForm/ArticleMetadataForm.tsx:79-81 | An analysis is available only for a known file whose status entry is not processing, and it is that entry's analysis. |
| ArticleMetadataForm.AnalysisAppliedOnce | articles/_components/newArticleForm/ArticleMetadataForm.tsx:115-122 | The guard is set exactly when an analysis is ready; after that no later status change touches the values, so edits made after the prefill stay. |
| ArticleMetadataForm.NoPrefillWhileProcessing | articles/_components/newArticleForm/ArticleMetadataForm.tsx:116 | A file without an id, or one still processing, is never prefilled. |
| ArticleMetadataForm.PrefillUsesAnalysis | articles/_components/newArticleForm/ArticleMetadataForm.tsx:116-121 | A completed analysis with every field set overwrites the title, the description and the page count. |
| ArticleMetadataForm.CheckCover | articles/_components/newArticleForm/ArticleMetadataForm.tsx:140-152 | A cover is accepted exactly when it is at most 2 MB and of an allowed type; it is rejected as too large exactly when it is over 2 MB, because size is checked first. |
| ArticleMetadataForm.CoverSizeBoundary | articles/_components/newArticleForm/ArticleMetadataForm.tsx:141-151 | Exactly 2097152 bytes is accepted and one byte more is not; an oversized file of a wrong type counts as too large. |
| ArticleMetadataForm.DataUrlPayload | articles/_components/newArticleForm/ArticleMetadataForm.tsx:162 | There is a payload exactly when the URL contains a comma, and the payload holds no comma. |
| ArticleMetadataForm.DataUrlPayloadIsData | articles/_components/newArticleForm/ArticleMetadataForm.tsx:160-164 | For a data URL `header,payload`, the stored cover value is the payload. |
| ArticleMetadataForm.ToggleMembership | articles/_components/newArticleForm/ArticleMetadataForm.tsx:592-597 | Checking appends the id, even when it is already there. Unchecking removes every occurrence of the id and nothing else. |
| ArticleMetadataForm.UncheckKeepsDistinct | articles/_components/newArticleForm/ArticleMetadataForm.tsx:596 | Unchecking keeps a list without duplicates free of duplicates. |
| ArticleMetadataForm.ToggleShared | articles/_components/newArticleForm/ArticleMetadataForm.tsx:585-665 | A checkbox of one list leaves the other two lists and the other shared fields unchanged. |
| ArticleMetadataForm.UncheckLastMakesInvalid | articles/_components/newArticleForm/ArticleMetadataForm.tsx:50-52 | Unchecking the only selected item of a list makes the form invalid. |
| ArticleMetadataForm.NonNumericPageCountInvalid | articles/_components/newArticleForm/ArticleMetadataForm.tsx:249 | A page-count input without leading digits is stored as 0, which fails the rule that the page count is at least 1. |
| ArticleMetadataForm.PageCountInputRoundTrip | articles/_components/newArticleForm/ArticleMetadataForm.tsx:249 | Typing a number as decimal digits stores that number. |
| ArticleMetadataForm.AsMetadata | articles/_components/newArticleForm/ArticleMetadataForm.tsx:132-134 | The reported record is filed under the file name and carries the watched title, description and page count. |
| ArticleMetadataForm.SingleMetadataForm.constructor | articles/_components/newArticleForm/ArticleMetadataForm.tsx:73-111 | The form starts with the default values, the guard cleared and no cover file or preview. |
| ArticleMetadataForm.SingleMetadataForm.OnFileStatuses | articles/_components/newArticleForm/ArticleMetadataForm.tsx:115-122 | The effect moves the guard and the values to the prefill effect of the old state; the cover is unchanged. |
| ArticleMetadataForm.SingleMetadataForm.HandlePageCountInput | articles/_components/newArticleForm/ArticleMetadataForm.tsx:249 | Only the page count changes, to `parseInt(input) \|\| 0`. |
| ArticleMetadataForm.SingleMetadataForm.HandleListCheckbox | articles/_components/newArticleForm/ArticleMetadataForm.tsx:589-597 | Only the shared fields change, by the toggle of one list. |
| ArticleMetadataForm.SingleMetadataForm.HandleCoverFileChange | articles/_components/newArticleForm/ArticleMetadataForm.tsx:137-172 | A rejected file changes nothing. An accepted one becomes the cover file with its preview, and its data URL's payload becomes the cover value. |
| ArticleMetadataForm.SingleMetadataForm.RemoveCoverImage | articles/_components/newArticleForm/ArticleMetadataForm.tsx:174-180 | The file and the preview are cleared, and the form's cover value stays. |
| ArticleMetadataFormGroup.InitialEntry | articles/_components/newArticleForm/ArticleMetadataFormGroup.tsx:113-120 | A member starts with its name as id, file name and title, and that entry never passes the entry rules. |
| ArticleMetadataFormGroup.InitialFileMetadata | articles/_components/newArticleForm/ArticleMetadataFormGroup.tsx:113-120 | There is one initial entry per member, in group order. |
| ArticleMetadataFormGroup.DefaultGroupValues | articles/_components/newArticleForm/ArticleMetadataFormGroup.tsx:122-140 | The defaults hold one entry per member. |
| ArticleMetadataFormGroup.DefaultGroupInvalid | articles/_components/newArticleForm/ArticleMetadataFormGroup.tsx:64-90 | The default values never pass the group schema, whatever the members. |
| ArticleMetadataFormGroup.MemberAnalysis | articles/_components/newArticleForm/ArticleMetadataFormGroup.tsx:157-158 | A member's analysis exists only for a member with an id that has a status entry, and it is that entry's analysis. |
| ArticleMetadataFormGroup.PrefillEntry | articles/_components/newArticleForm/ArticleMetadataFormGroup.tsx:159-161 | The prefill never changes an entry's id, file name or cover. |
| ArticleMetadataFormGroup.PrefillGroup | articles/_components/newArticleForm/ArticleMetadataFormGroup.tsx:156-163 | The prefill keeps one entry per member. |
| ArticleMetadataFormGroup.PrefillGroupIdempotent | articles/_components/newArticleForm/ArticleMetadataFormGroup.tsx:152-168 | Running the prefill again with the same statuses changes nothing more. |
| ArticleMetadataFormGroup.ReapplicationOverwritesEdits | articles/_components/newArticleForm/ArticleMetadataFormGroup.tsx:152-168 | The group prefill has no apply-once guard: a title typed after a prefill is reset to the analysis title by the next status change. |
| ArticleMetadataFormGroup.PrefillFrames | articles/_components/newArticleForm/ArticleMetadataFormGroup.tsx:156-163 | A member without an analysis is left as it was, and no member's id or cover changes. |
| ArticleMetadataFormGroup.AsGroupMetadata | articles/_components/newArticleForm/ArticleMetadataFormGroup.tsx:170-172 | The reported record is filed under the group id and carries the member entries, with no per-file title, description, page count or cover. |
| ArticleMetadataFormGroup.GroupMetadataForm.constructor | articles/_components/newArticleForm/ArticleMetadataFormGroup.tsx:110-140 | The form starts with the group defaults and no cover files or previews. |
| ArticleMetadataFormGroup.GroupMetadataForm.OnFileStatuses | articles/_components/newArticleForm/ArticleMetadataFormGroup.tsx:152-168 | The loop over the members leaves the entries equal to the group prefill of the old entries; the shared fields and covers are unchanged. |
| ArticleMetadataFormGroup.GroupMetadataForm.HandleCoverFileChange | articles/_components/newArticleForm/ArticleMetadataFormGroup.tsx:175-210 | A rejected file changes nothing. An accepted one sets only that member's cover file, preview and cover value. |
| ArticleMetadataFormGroup.GroupMetadataForm.RemoveCoverImage | articles/_components/newArticleForm/ArticleMetadataFormGroup.tsx:212-230 | The member's cover value becomes `""` and only that member's cover file and preview are forgotten. |
| ArticleMetadataFormGroup.GroupMetadataForm.HandleListCheckbox | articles/_components/newArticleForm/ArticleMetadataFormGroup.tsx:698-767 | Only the shared fields change, by the toggle of one list. |
| FileUploadPoll.ThrownMessage | utils/api/fileUploadPoll.ts:77-89 | A response ends in the `catch` block exactly when the request failed or the HTTP status was not OK. |
| FileUploadPoll.HandleResponse | utils/api/fileUploadPoll.ts:87-117 | Handling an answer never changes whether the loop was cancelled. |
| FileUploadPoll.StepCallbackStops | utils/api/fileUploadPoll.ts:95-132 | In the corrected loop, a step calls back only when it stops the loop. A stopped loop stays stopped and silent, and a cancelled loop stays cancelled and silent. |
| FileUploadPoll.StoppedStaysSilent | utils/api/fileUploadPoll.ts:101-117 | In the corrected loop, once the loop has stopped, no sequence of events leads to another callback. |
| FileUploadPoll.AtMostOneCallback | utils/api/fileUploadPoll.ts:101-117 | In the corrected loop, whatever the events, a poll loop calls `onComplete` or `onError` at most once. |
| FileUploadPoll.StepCallbackStopsAsWritten | utils/api/fileUploadPoll.ts:95-122 | In the loop as written, a step calls back only when it stops the loop, and a stopped loop stays stopped and silent. |
| FileUploadPoll.StoppedStaysSilentAsWritten | utils/api/fileUploadPoll.ts:101-117 | In the loop as written, a stopped loop stays stopped and makes no further callback, whatever events follow. |
| FileUploadPoll.AtMostOneCallbackAsWritten | utils/api/fileUploadPoll.ts:101-132 | In the loop as written, cancels included, a poll loop calls `onComplete` or `onError` at most once. |
| FileUploadPoll.AsWrittenAgreesUncancelled | utils/api/fileUploadPoll.ts:76-132 | The loop as written and the corrected loop take the same step on every event but a cancel, as long as the loop has not been cancelled. |
| FileUploadPoll.RunAgreesWithoutCancel | utils/api/fileUploadPoll.ts:76-132 | A run of events with no cancel in it gives the same final state and the same callbacks in both loops. |
| FileUploadPoll.CancelWhileWaitingStopsAsWritten | utils/api/fileUploadPoll.ts:119-132 | In the loop as written, a cancel while the loop waits on its retry timer stops it: no callback follows. |
| FileUploadPoll.CancelledStaysSilent | utils/api/fileUploadPoll.ts:128-132 | With cancellation honoured, a cancelled loop never reports again and stays cancelled. |
| FileUploadPoll.RetryCountsFailures | utils/api/fileUploadPoll.ts:108-109 | The retry counter grows by one exactly for a failed request the loop was waiting on. Non-JSON and still-processing answers neither count nor reset it. |
| FileUploadPoll.ErrorAtRetryLimit | utils/api/fileUploadPoll.ts:109-116 | `onError` is called, with the thrown message, exactly when a failure brings the counter to `maxRetries`. |
| FileUploadPoll.CompleteOnFinalStatus | utils/api/fileUploadPoll.ts:101-107 | `onComplete` is called exactly for a completed or failed answer the loop was waiting on. |
| FileUploadPoll.ThirtyFailuresReportError | utils/api/fileUploadPoll.ts:69-70 | With the default limit, thirty failed requests in a row, retried on each timer, end in exactly one `onError` carrying the last message. |
| FileUploadPoll.CancelDuringRequestAsWritten | utils/api/fileUploadPoll.ts:128-132 | As written, a cancel while the first request is in flight does not stop the loop: the answer still reaches `onComplete`. With cancellation honoured, nothing is reported. |
| FileUploadPoll.CancelThenReschedulesAsWritten | utils/api/fileUploadPoll.ts:93-96 | As written, a non-JSON answer after a cancel schedules a new poll, which later reports a result. |
| FileUploadPoll.TrackFile | utils/api/fileUploadPoll.ts:143-186 | Tracking keeps the hook's state consistent: every loop has a status entry, and every stored cancel function has a loop. |
| FileUploadPoll.DeliverEvent | utils/api/fileUploadPoll.ts:157-181 | In the corrected hook, a poll event keeps the hook's state consistent and the set of loops unchanged. |
| FileUploadPoll.StopTracking | utils/api/fileUploadPoll.ts:189-195 | In the corrected hook, `stopTracking` keeps the state consistent, drops the file's cancel function, keeps the set of loops and never changes the status map. |
| FileUploadPoll.Unmount | utils/api/fileUploadPoll.ts:198-202 | In the corrected hook, unmounting keeps the state consistent and never changes the status map. |
| FileUploadPoll.DeliverAll | utils/api/fileUploadPoll.ts:157-181 | In the corrected hook, a run of poll events keeps the state consistent and the set of loops unchanged. |
| FileUploadPoll.DeliverKeepsOtherStatuses | utils/api/fileUploadPoll.ts:158-177 | Events of one file's loop never touch another file's status entry, and never create one. |
| FileUploadPoll.CancelledLoopKeepsStatuses | utils/api/fileUploadPoll.ts:189-195 | In the corrected hook, after a file's loop is cancelled, nothing it still receives changes the status map. |
| FileUploadPoll.StopRightAfterTrack | utils/api/fileUploadPoll.ts:143-195 | In the corrected hook, a file stopped right after tracking keeps its "processing" entry with no analysis and no error, whatever answers are still in flight. |
| FileUploadPoll.CompletionRecorded | utils/api/fileUploadPoll.ts:157-169 | A final answer is recorded with its status and analysis. A failure carries its message or "Processing failed", and the cancel function is dropped. |
| FileUploadPoll.DeliverEventAsWritten | utils/api/fileUploadPoll.ts:157-181 | In the hook as written, a poll event keeps the hook's state consistent and the set of loops unchanged. |
| FileUploadPoll.StopTrackingAsWritten | utils/api/fileUploadPoll.ts:189-195 | In the hook as written, `stopTracking` keeps the state consistent, drops the file's cancel function, keeps the set of loops and never changes the status map. |
| FileUploadPoll.UnmountAsWritten | utils/api/fileUploadPoll.ts:198-202 | In the hook as written, unmounting keeps the state consistent and changes neither the status map nor the stored cancel functions. |
| FileUploadPoll.DeliverAllAsWritten | utils/api/fileUploadPoll.ts:157-181 | In the hook as written, a run of poll events keeps the state consistent and the set of loops unchanged. |
| FileUploadPoll.DeliverAllAgreesWithoutCancel | utils/api/fileUploadPoll.ts:143-181 | For a loop not cancelled and events with no cancel, the hook as written and the corrected hook reach the same state. |
| FileUploadPoll.StoppedLoopKeepsStatusesAsWritten | utils/api/fileUploadPoll.ts:157-181 | In the hook as written, once a file's loop has stopped, nothing it still receives changes the status map. |
| FileUploadPoll.StopWhileWaitingKeepsStatusesAsWritten | utils/api/fileUploadPoll.ts:128-195 | In the hook as written, `stopTracking` while the loop waits on its timer freezes the status map, whatever events follow. |
| FileUploadPoll.StopThenAnswerRecordedAsWritten | utils/api/fileUploadPoll.ts:143-195 | In the hook as written, a file stopped right after tracking still records a completed answer that was in flight, with its analysis and no error. The corrected hook keeps the "processing" entry. |
| FileUploadPoll.FileTracker.constructor | utils/api/fileUploadPoll.ts:139-140 | The hook starts with no statuses, no loops and no cancel functions. |
| FileUploadPoll.FileTracker.Track | utils/api/fileUploadPoll.ts:143-186 | The new state is `TrackFile` of the old one. |
| FileUploadPoll.FileTracker.OnPollEvent | utils/api/fileUploadPoll.ts:157-181 | The new state is `DeliverEvent` (the corrected hook) of the old one. |
| FileUploadPoll.FileTracker.Stop | utils/api/fileUploadPoll.ts:189-195 | The new state is `StopTracking` (the corrected hook) of the old one. |
| FileUploadPoll.FileTracker.OnUnmount | utils/api/fileUploadPoll.ts:198-202 | The new state is `Unmount` (the corrected hook) of the old one. |
| NewArticlePage.NavigationBounds | articles/new/page.tsx:134-149 | The step stays within the five steps. Next adds one below the last step and Previous takes one above the first; Previous undoes Next; neither touches the files. |
| NewArticlePage.AutoSelectChoice | articles/new/page.tsx:124-131 | The effect only fills an empty selection past step 0. It picks the first group when there is one, else the first ungrouped file, and changes nothing else. |
| NewArticlePage.UniqueNewFiles | articles/new/page.tsx:153-155 | The kept files come from the batch, and none shares its name with a file already present. |
| NewArticlePage.UploadsKeepNamesDistinct | articles/new/page.tsx:151-170 | With the intended upload, ungrouped file names stay unique, and a batch with no new name changes nothing. |
| NewArticlePage.DuplicateUploadAsWritten | articles/new/page.tsx:160 | As written, re-uploading `report.pdf` together with a new file adds `report.pdf` a second time; the intended upload adds only the new file. |
| NewArticlePage.TrackUploads | articles/new/page.tsx:163-169 | Tracking the uploads keeps the hook's state consistent and never drops a status entry. |
| NewArticlePage.TrackUploadsEntries | articles/new/page.tsx:163-169 | Every added file with an id gets a "processing" entry, and the entries of all other ids are untouched. |
| NewArticlePage.RemoveFileEffects | articles/new/page.tsx:172-187 | Removing a file drops exactly that handle and its metadata entry. The other metadata, the validity, relevance and complexity entries, the groups and the step are all kept. |
| NewArticlePage.RemovedFileBlocksMetadataStep | articles/new/page.tsx:843-849 | The stale validity entry of a removed file keeps the metadata step closed, even though the remaining file's form is valid. |
| NewArticlePage.GroupingKeepsFiles | articles/new/page.tsx:292-315 | Grouping the files the dialog collected neither loses nor duplicates a file (a multiset equality over all files). |
| NewArticlePage.GroupingKeepsPartition | articles/new/page.tsx:292-315 | With a fresh group id, grouping keeps the partition: each file is once ungrouped or in one group, group ids are unique, and groups have at least two files. |
| NewArticlePage.UngroupKeepsFiles | articles/new/page.tsx:676-681 | Ungrouping neither loses nor duplicates a file. |
| NewArticlePage.UngroupKeepsPartition | articles/new/page.tsx:676-681 | Ungrouping keeps the partition. |
| NewArticlePage.RemoveKeepsPartition | articles/new/page.tsx:172-187 | Removing a file keeps the partition. |
| NewArticlePage.UploadKeepsPartition | articles/new/page.tsx:151-170 | Uploading fresh handles keeps the partition. |
| NewArticlePage.ReportsUpsert | articles/new/page.tsx:217-290 | Each of the four report callbacks stores its entry under the reported id, keeps every other id's entry, and keeps ids unique in all four lists. |
| NewArticlePage.RemoveKeepsRegistries | articles/new/page.tsx:186 | Removing a file keeps ids unique in all four lists. |
| NewArticlePage.IsRelevanceValid | articles/new/page.tsx:206-211 | The result is unknown exactly when the entity has no touched entry; otherwise it states whether some skill is selected. |
| NewArticlePage.TouchedIsPermanent | articles/new/page.tsx:249-275 | A vector with a selected skill touches its entry, and no later report, for any id, untouches an entry. |
| NewArticlePage.RelevanceAfterReport | articles/new/page.tsx:249-275 | After a report, the entity's relevance validity is exactly "some skill selected in that report", once the entry is touched. |
| NewArticlePage.AllIds | articles/new/page.tsx:200 | There is one id per ungrouped file and one per group. |
| NewArticlePage.AdvanceMeansRelevanceEntries | articles/new/page.tsx:511-521 | Once step 2 can be left, every entity has a relevance entry with a selected skill, so the non-null lookups of the complexity step succeed. |
| NewArticlePage.NextGates | articles/new/page.tsx:843-849 | The gate of each step: step 0 needs files and finished loading; step 1 needs one valid entry per entity; step 2 needs every entity's relevance valid; later steps are open; submitting blocks everything. |
| NewArticlePage.UntouchedBlocksRelevanceStep | articles/new/page.tsx:198-211 | An untouched entity, or one whose report selects nothing, keeps step 2 closed. |
| NewArticlePage.GetFileStatus | articles/new/page.tsx:193-196 | A file without an id is "uploading". A file with an entry shows that entry's status, and one without an entry counts as processing. |
| NewArticlePage.FileIndicator | articles/new/page.tsx:724-792 | A file card shows a spinner exactly while the file is processing. At step 0 it otherwise shows no badge. |
| NewArticlePage.GroupIndicator | articles/new/page.tsx:604-669 | A group card shows a spinner exactly while some member with an id is processing. |
| NewArticlePage.TrackedFileSpins | articles/new/page.tsx:724-726 | A file that has just started being tracked shows the spinner. |
| NewArticlePage.GroupMemberItems | articles/new/page.tsx:329-345 | The loop yields one record per entry that has a member file, in order, each built from that entry and that file. |
| NewArticlePage.Format | articles/new/page.tsx:374-395 | A request body has the fixed MIME types and a nonzero duration, equal to the page count when that is nonzero. The revoked date is null exactly when it is empty, and the title, file id, size and cover are passed through. |
| NewArticlePage.FileItemsSingle | articles/new/page.tsx:360-372 | An ungrouped file is submitted exactly when it has both a metadata and a complexity entry. |
| NewArticlePage.SubmissionCoversEveryFile | articles/new/page.tsx:317-372 | When every entity has its entries, the submission holds one record per physical file: the groups' members in order, then the ungrouped files. Record k carries the id and size of the k-th of them, and that order is a permutation of all files. |
| NewArticlePage.GroupsItemsMatchFiles | articles/new/page.tsx:322-357 | Groups with complete entries yield one record per member, in order, each carrying that member's id and size. |
| NewArticlePage.GroupItemsPerMember | articles/new/page.tsx:322-345 | A ready group yields one record per member, in order. Record i is built from the group's record, the member's own entry i and member file i. |
| NewArticlePage.FileItemsMatchFiles | articles/new/page.tsx:360-372 | Ungrouped files with complete entries yield one record each, in order. Record i is built from file i with its metadata and complexity entries, and carries the file's id and size. |
| NewArticlePage.GroupedDurationIsOne | articles/new/page.tsx:332-341 | A member's own page count is not copied, so every member of a group is sent with duration 1 but with its own title and file id. |
| NewArticlePage.TrackAll | articles/new/page.tsx:163-169 | The loop leaves the tracker in `TrackUploads` of its old state. |
| NewArticlePage.NewArticleWizard.constructor | articles/new/page.tsx:49-77 | The page starts at step 0 with empty lists, no selection and an empty tracker. |
| NewArticlePage.NewArticleWizard.HandleNext | articles/new/page.tsx:134-143 | The new state is `Next` of the old one. |
| NewArticlePage.NewArticleWizard.HandlePrevious | articles/new/page.tsx:145-149 | The new state is `Previous` of the old one. |
| NewArticlePage.NewArticleWizard.RunAutoSelect | articles/new/page.tsx:124-131 | The new state is `AutoSelect` of the old one. |
| NewArticlePage.NewArticleWizard.SelectFile | articles/new/page.tsx:189-191 | Only the selection changes. |
| NewArticlePage.NewArticleWizard.HandleFileUploaded | articles/new/page.tsx:151-170 | The session becomes the intended upload of the old one, and the tracker tracks the added files in order. |
| NewArticlePage.NewArticleWizard.RemoveFile | articles/new/page.tsx:172-187 | The session becomes `WithFileRemoved` of the old one, and the file's polling is stopped when it has an id. |
| NewArticlePage.NewArticleWizard.HandleGroupFiles | articles/new/page.tsx:292-315 | The session becomes `WithFilesGrouped`, under the id `group-<now>`. |
| NewArticlePage.NewArticleWizard.Ungroup | articles/new/page.tsx:676-681 | The session becomes `WithGroupDissolved` of the old one. |
| NewArticlePage.NewArticleWizard.UpdateMetadata | articles/new/page.tsx:217-230 | The in-place `findIndex` update is the upsert of the entry under the reported id. |
| NewArticlePage.NewArticleWizard.CheckIsMetadataValid | articles/new/page.tsx:232-245 | The in-place update is the upsert of the validity entry. |
| NewArticlePage.NewArticleWizard.OnRelevancyChange | articles/new/page.tsx:249-275 | The in-place update is the upsert of the relevance entry, touched when a skill is selected or when it already was touched. |
| NewArticlePage.NewArticleWizard.OnComplexityChange | articles/new/page.tsx:277-290 | The in-place update is the upsert of the complexity entry. |
| NewArticlePage.NewArticleWizard.HandleSubmit | articles/new/page.tsx:317-395 | The bodies sent are `Format` of each record of the assembled submission: groups first, then ungrouped files, in order. |
| NewArticlePage.CollectGroups | articles/new/page.tsx:322-357 | The group loop yields the records of every group, group by group. |
| NewArticlePage.CollectFiles | articles/new/page.tsx:360-372 | The file loop appends a record for each ungrouped file with both entries, in file order. |
| NewArticlePage.CollectGroup | articles/new/page.tsx:323-356 | One group's records: none without both entries; else the per-entry loop, or the group record once per member when there is no `fileMetadata`. |
| NewArticlePage.FormatAll | articles/new/page.tsx:374-395 | There is one request body per record, in order. |
| Registry.UpsertReplacesOrAppends | articles/new/page.tsx:217-230 | The `findIndex` update replaces the entry with the same id in place, or appends when there is none. |
| Registry.UpsertThenLookup | articles/new/page.tsx:217-230 | After an update, the reported id finds the reported entry. |
| Registry.UpsertKeepsOthers | articles/new/page.tsx:217-230 | An update leaves what every other id finds unchanged. |
| Registry.UpsertKeepsKeysUnique | articles/new/page.tsx:217-230 | An update never duplicates an id; the ids afterwards are the old ones plus the reported one. |
| Registry.LookupIffKey | articles/new/page.tsx:323-324 | `find` on the id succeeds exactly when the id is present, and then finds an entry with that id. |
| Registry.RemoveKeyLookup | articles/new/page.tsx:186 | Filtering out an id leaves no entry for it, and every other id finds what it found before. |
| Registry.FilterKeepsUniqueKeys | articles/new/page.tsx:186 | Dropping entries never introduces a duplicate id. |
| Registry.AppendFreshKey | articles/new/page.tsx:306 | Appending an entry with a fresh id keeps ids unique. |
| Registry.FilterRemovesUniqueKey | articles/new/page.tsx:680 | When ids are unique, filtering out the id of entry `k` removes exactly that entry and keeps the others in order. |
| ReviewSubmitForm.NameFromId | articles/_components/newArticleForm/ReviewSubmitForm.tsx:43-47 | An empty id is "Not provided". A known id shows the name of the first entry with that id, and an unknown id shows "Unknown". |
| ReviewSubmitForm.FirstNameWins | articles/_components/newArticleForm/ReviewSubmitForm.tsx:45-46 | The first entry with an id names it; a later entry with the same id is never shown. |
| ReviewSubmitForm.IdCell | articles/_components/newArticleForm/ReviewSubmitForm.tsx:94 | A single-value cell is never empty, and it is "Not provided" for an empty id. |
| ReviewSubmitForm.ListCell | articles/_components/newArticleForm/ReviewSubmitForm.tsx:110 | A list cell is never empty, and it is "Not provided" for an empty list. |
| ReviewSubmitForm.ListCellShapes | articles/_components/newArticleForm/ReviewSubmitForm.tsx:110 | A one-id list shows that id's cell, and two ids are joined by `", "`. |
| ReviewSubmitForm.YesNo | articles/_components/newArticleForm/ReviewSubmitForm.tsx:134 | The flag shows "Yes" exactly when it is set, and "No" exactly when it is not. |
| ReviewSubmitForm.FileMetadataFor | articles/_components/newArticleForm/ReviewSubmitForm.tsx:50-55 | There is no per-file entry without a `fileMetadata` array; a found entry is in the array and has the card's id. |
| ReviewSubmitForm.ResolveDocument | articles/_components/newArticleForm/ReviewSubmitForm.tsx:57-61 | A non-empty per-file title wins, otherwise the record's title or "Not provided". The page count falls back the same way and is "Not provided" exactly when both counts are falsy. No shown text is empty. |
| ReviewSubmitForm.Card | articles/_components/newArticleForm/ReviewSubmitForm.tsx:88-147 | The card shows the resolved title and description, the revoked date or "Not provided", Yes/No flags, the looked-up names and the file name. |
| ReviewSubmitForm.GroupMemberSeesOwnEntry | articles/_components/newArticleForm/ReviewSubmitForm.tsx:50-55 | When the per-file ids are distinct, member `i` of a group sees exactly entry `i`. |
| ReviewSubmitForm.ToRecord | articles/new/page.tsx:533-536 | The record passed to the review step has a key for every stored id and no other. |
| ReviewSubmitForm.ToRecordAgreesWithLookup | articles/new/page.tsx:533-536 | With unique ids, the record holds exactly the entry a lookup finds, in both directions. |
| ReviewSubmitForm.DuplicateIdLastWins | articles/new/page.tsx:533-536 | Where ids repeat, the record keeps the last entry while `find` takes the first. |
| FileGroupModal.FilesToGroup | articles/_components/newArticleForm/FileGroupModal.tsx:25 | The files handed over are exactly the listed files whose flag is set: every one is listed and checked, and every checked listed file is included. |
| FileGroupModal.SelectedCount | articles/_components/newArticleForm/FileGroupModal.tsx:33 | The count never exceeds the number of flags. |
| FileGroupModal.CountMatchesGroup | articles/_components/newArticleForm/FileGroupModal.tsx:25-33 | With distinct names and flags only for listed files, the count on the button is the number of files handed over. |
| FileGroupModal.GroupDialog.constructor | articles/_components/newArticleForm/FileGroupModal.tsx:14-15 | The dialog starts closed with no flags. |
| FileGroupModal.GroupDialog.CheckboxChange | articles/_components/newArticleForm/FileGroupModal.tsx:17-22 | Only this name's flag changes, to the new state. |
| FileGroupModal.GroupDialog.OpenChange | articles/_components/newArticleForm/FileGroupModal.tsx:48-53 | The dialog takes the new open state, and closing clears every flag. |
| FileGroupModal.GroupDialog.GroupFiles | articles/_components/newArticleForm/FileGroupModal.tsx:24-31 | With more than one checked file, the checked files are handed over and the dialog closes and clears. Otherwise nothing is handed over and nothing changes. |
| FileGroupModal.ClearedDialogDisabled | articles/_components/newArticleForm/FileGroupModal.tsx:85 | A fresh or just-closed dialog counts nothing, selects nothing and keeps its group button disabled. |
| FileGroupModal.HandedFilesAreSubsequence | articles/_components/newArticleForm/FileGroupModal.tsx:25 | The handed files are a subsequence of the list: they keep its order, and each appears once. |
| NewArticleForm.PdfFiles | articles/_components/newArticleForm/NewArticleForm.tsx:21-23 | Exactly the dropped files whose type is `application/pdf` are kept. |
| NewArticleForm.Survivors | articles/_components/newArticleForm/NewArticleForm.tsx:29-67 | There are never more handles than PDFs. |
| NewArticleForm.SurvivorsCount | articles/_components/newArticleForm/NewArticleForm.tsx:60-67 | There are exactly as many handles as uploads that did not throw. |
| NewArticleForm.SurvivorsAreRespondedUploads | articles/_components/newArticleForm/NewArticleForm.tsx:48-67 | The handed list is the uploads that did not throw, in drop order: handle k is the name and size of the k-th such PDF with its returned uuid. Those uploads are a subsequence of all uploads. |
| NewArticleForm.SurvivorsAllResponded | articles/_components/newArticleForm/NewArticleForm.tsx:48-67 | When no upload throws, every PDF yields its own name, size and returned uuid, in drop order. |
| NewArticleForm.Dropzone.constructor | articles/_components/newArticleForm/NewArticleForm.tsx:17 | The dropzone starts idle. |
| NewArticleForm.Dropzone.StartDrop | articles/_components/newArticleForm/NewArticleForm.tsx:19-26 | The PDFs are picked, and the dropzone is marked as uploading exactly when there is at least one. |
| NewArticleForm.Dropzone.FinishDrop | articles/_components/newArticleForm/NewArticleForm.tsx:25-71 | With no PDFs the wizard is not called and the flag stays. Otherwise the flag is cleared and the wizard gets fresh handles for exactly the surviving uploads. |
| NewArticleForm.DropReachesWizard | articles/_components/newArticleForm/NewArticleForm.tsx:21-25 | A drop reaches the wizard exactly when it holds at least one PDF. |
| Chats.Dispatch | utils/api/chats.ts:132-166 | A parsed payload causes at most one callback. A failed parse or a `null` event sends the raw payload as a chunk, an `error` event reports its message or the fallback text, and `complete`/`done` are the only events that complete. |
| Chats.ProcessLine | utils/api/chats.ts:121-168 | Blank lines and lines without the `data: ` prefix cause nothing. An empty payload or `[DONE]` completes. Any other payload is dispatched. |
| Chats.CallsOfAppend | utils/api/chats.ts:114-119 | Processing two runs of lines gives the callbacks of the first run, then those of the second. |
| Chats.FeedAllFrames | utils/api/chats.ts:91-103 | After any number of chunks, the buffer holds the unfinished last line of the text so far. Every finished line has been processed once, in order. |
| Chats.ChunkingInvariance | utils/api/chats.ts:79-104 | The callbacks depend only on the streamed text, never on where the reader cut it into chunks. |
| Chats.SameTextSameCallbacks | utils/api/chats.ts:79-104 | Two chunkings of the same text give the same callbacks. |
| Chats.DoneCompletesTwice | utils/api/chats.ts:82-88 | A stream made of one `data: [DONE]` line completes twice: once for the line and once at the end of the stream. |
| Chats.CompletingLineThenEnd | utils/api/chats.ts:82-103 | A completing line with its line end completes once for the line and once at the end of the stream. |
| Chats.DoneLineCompletes | utils/api/chats.ts:124-129 | The `data: [DONE]` line completes. |
| Chats.Leftover | utils/api/chats.ts:84-85 | Processing the leftover only when it is not blank does the same as processing it always. |
| Chats.HandleStreamingResponse | utils/api/chats.ts:68-112 | When the stream ends, the callbacks are those of the whole text, with one completion at the end. When a read throws, they are those of the lines finished so far, then one `onError` with its message, and the error is rethrown. No completion fires then. |
| Chats.ProcessLines | utils/api/chats.ts:114-119 | Each line is processed in order. |
| Chats.AskChatbotStream | utils/api/chats.ts:25-112 | The plain request is used exactly when streaming is off or there is no `onChunk`, and then no callback fires. A failed response or a missing body is reported once. A read that fails mid-stream is reported twice after the finished lines' callbacks, and every failure is rethrown. A stream that ends gives the whole text's callbacks. |
| Chats.ReadFailureReportedTwice | utils/api/chats.ts:48-112 | After a failed read, the callbacks before the two `onError` calls are those of the reader loop. Adding the unfinished line and the final completion would give exactly the callbacks of a stream that ended there. |
| Chats.StreamingByDefault | utils/api/chats.ts:7-38 | Streaming is on unless it is switched off explicitly or `onChunk` is missing. |
| EditArticleForm.DatePart | articles/_components/EditArticleForm.tsx:48-50 | The date part is the prefix of the ISO text before its first `T`, with no `T` in it. |
| EditArticleForm.InitialRelevance | articles/_components/EditArticleForm.tsx:61-68 | There is one cell per job-title skill, in order: its stored relevance when the article has one, and 0 otherwise. |
| EditArticleForm.InitialFormData | articles/_components/EditArticleForm.tsx:42-69 | Each field takes the stored value when it is truthy and its default otherwise. The revoked date keeps only the date part, the lists fall back to empty, and the relevance row follows the skills. |
| EditArticleForm.InitialRelevanceValues | articles/_components/EditArticleForm.tsx:71-80 | There is one entry per job-title skill and none is 0: a stored non-zero relevance is kept, and anything else becomes 1. |
| EditArticleForm.ValueOr1 | articles/_components/EditArticleForm.tsx:224 | The value is never 0, and it is the stored value whenever that is set and non-zero. |
| EditArticleForm.JobTitleSkillsPayload | articles/_components/EditArticleForm.tsx:222-225 | There is one payload entry per job-title skill, in order, each with its id and its relevance or 1. |
| EditArticleForm.RelevanceRow | articles/_components/EditArticleForm.tsx:612-614 | The row built on a select change agrees cell for cell with the payload over the same values. |
| EditArticleForm.SelectLagsOneBehind | articles/_components/EditArticleForm.tsx:604-618 | The row is rebuilt from the values before the change, so the changed skill's cell differs from the value just chosen. |
| EditArticleForm.WithText | articles/_components/EditArticleForm.tsx:99-104 | Only the named text field changes, to the new value. |
| EditArticleForm.WithToggled | articles/_components/EditArticleForm.tsx:115-126 | Only the named list changes: the value is appended when checked and every copy of it is removed when unchecked. |
| EditArticleForm.ToggleCounts | articles/_components/EditArticleForm.tsx:122-124 | Checking adds one copy of the value. Unchecking leaves none and keeps every other value's count. |
| EditArticleForm.ArticleBodyIgnoresLists | articles/_components/EditArticleForm.tsx:137-141 | The article PUT carries every scalar field and none of the lists or the relevance row. |
| EditArticleForm.Requests | articles/_components/EditArticleForm.tsx:143-236 | There are five PUTs in a fixed order: the article body first and the job-title skill relevances last. |
| EditArticleForm.Submit | articles/_components/EditArticleForm.tsx:128-262 | The requests go out in order until the first failure, which sets that step's error and the failure status. `onSubmit` gets the body exactly when all five succeed. The router goes to the article page in every case. |
| EditArticleForm.SubmitStopsAtFirstFailure | articles/_components/EditArticleForm.tsx:156-158 | A failure at request k means exactly k + 1 requests went out, nothing was submitted and that failure's message is shown. |
| EditArticleForm.EditArticle.constructor | articles/_components/EditArticleForm.tsx:42-88 | The form starts from the initial data and relevance values, with no error, no status and no submission under way. |
| EditArticleForm.EditArticle.HandleTextChange | articles/_components/EditArticleForm.tsx:90-105 | The form data becomes the old data with that text field set. |
| EditArticleForm.EditArticle.HandleDurationChange | articles/_components/EditArticleForm.tsx:94-98 | The duration becomes `parseInt(value) \|\| 0`, and nothing else changes. |
| EditArticleForm.EditArticle.HandleCheckboxChange | articles/_components/EditArticleForm.tsx:107-113 | Only the named flag changes, to the new checked state. |
| EditArticleForm.EditArticle.HandleMultiCheckboxChange | articles/_components/EditArticleForm.tsx:115-126 | The form data becomes the old data with the list toggled. |
| EditArticleForm.EditArticle.HandleRelevanceSelect | articles/_components/EditArticleForm.tsx:604-618 | The value map takes the new value, and the form's relevance row is rebuilt from the old map. |
| EditArticleForm.EditArticle.HandleSubmit | articles/_components/EditArticleForm.tsx:128-262 | The result is that of `Submit` on the state before the click. The error and status are shown and the form is no longer submitting. |
| AssessmentsPage.RoundedMean | my/assessments/page.tsx:51 | The result is the nearest integer to the mean, with halves rounded up, as `Math.round` does. |
| AssessmentsPage.RoundedMeanUnique | my/assessments/page.tsx:51 | No other integer meets those rounding bounds. |
| AssessmentsPage.SumBounds | my/assessments/page.tsx:47-50 | The sum of n values between lo and hi lies between n·lo and n·hi. |
| AssessmentsPage.RoundedAverageBetween | my/assessments/page.tsx:46-51 | The rounded mean of a non-empty list lies between the least and the greatest bound of its values. |
| AssessmentsPage.RelevantJobTitleSkills | my/assessments/page.tsx:38-41 | Exactly the job-title skills whose skill belongs to the competency are kept. |
| AssessmentsPage.RelevantResults | my/assessments/page.tsx:42-44 | Exactly the results that answer one of the relevant job-title skills are kept. |
| AssessmentsPage.Scores | my/assessments/page.tsx:37-67 | There is one (average, expected) pair per competency, index for index. |
| AssessmentsPage.AverageBounds | my/assessments/page.tsx:46-51 | Without a relevant result the average is 0. Otherwise it lies within the bounds of the results' values. |
| AssessmentsPage.ExpectedBounds | my/assessments/page.tsx:61-66 | Without a relevant job-title skill the expected level is 0. Otherwise it lies within the bounds of their targets. |
| AssessmentsPage.PageOverview | my/assessments/page.tsx:29-104 | With at least one competency, a missing assessment or a missing result list throws, since the averages read it before the empty-state test. Otherwise the empty state shows exactly when the test holds. The score grid has one (average, expected) pair per competency, from the assessment's results. |
| CompetencyModal.InResultMatches | my/assessments/_components/CompetencyModal.tsx:43-47 | A result is matched to a job-title skill exactly when it answers that skill. |
| CompetencyModal.InSkillMatches | my/assessments/_components/CompetencyModal.tsx:40-48 | One job-title skill yields its results exactly when its skill is one of the competency's skills. |
| CompetencyModal.InMatches | my/assessments/_components/CompetencyModal.tsx:39-49 | A (job-title skill, result) pair is visited exactly when the skill is listed, belongs to the competency and the result answers it. |
| CompetencyModal.PicksAreMap | my/assessments/_components/CompetencyModal.tsx:39-60 | What a loop nest pushes is the picked field of each visited pair, in visiting order. |
| CompetencyModal.PushResults | my/assessments/_components/CompetencyModal.tsx:43-47 | The innermost loop appends the picks of exactly the results answering the job-title skill. |
| CompetencyModal.PushSkills | my/assessments/_components/CompetencyModal.tsx:40-48 | The middle loop runs the inner loop once for each competency skill equal to the job-title skill's skill. |
| CompetencyModal.Collect | my/assessments/_components/CompetencyModal.tsx:39-49 | The outer loop pushes the pick of every visited pair, in order. |
| CompetencyModal.CompetencyScores | my/assessments/_components/CompetencyModal.tsx:37-131 | The results and targets line up with the visited pairs. The two headline scores are their rounded means, or 0 for an empty list. |
| CompetencyModal.TargetWeightedByResults | my/assessments/_components/CompetencyModal.tsx:50-60 | A case where the dialog's target (4) differs from the overview's (3): the dialog counts a target once per result. |
| AssessmentForm.InitialSlots | my/assessments/_components/AssessmentForm.tsx:59-62 | There is one empty answer slot per question. |
| AssessmentForm.InitialFormInvalid | my/assessments/_components/AssessmentForm.tsx:63-72 | A fresh form with at least one question never passes the schema. |
| AssessmentForm.NumberOf | my/assessments/_components/AssessmentForm.tsx:79 | `Number(value)` gives the picked level, and 0 for the empty string. |
| AssessmentForm.AnswersFollowQuestions | my/assessments/_components/AssessmentForm.tsx:76-81 | There is one answer per question, in question order, carrying that question's job-title skill. On a fully answered form every value is a level from 1 to 4. |
| AssessmentForm.BodyAsWritten | my/assessments/_components/AssessmentForm.tsx:40-82 | The posted body carries the name, and its results start with whatever `quiz` already held before this submission's answers. |
| AssessmentForm.Body | my/assessments/_components/AssessmentForm.tsx:76-82 | The intended body is the as-written one started from an empty list: exactly one entry per question. |
| AssessmentForm.RetryDuplicatesAsWritten | my/assessments/_components/AssessmentForm.tsx:40-82 | A second attempt after a failed post sends every answer twice, so its body differs from the intended one. |
| AssessmentForm.Form.constructor | my/assessments/_components/AssessmentForm.tsx:40-62 | The form starts with an empty name, one empty slot per question and an empty `quiz`. |
| AssessmentForm.Form.SetName | my/assessments/_components/AssessmentForm.tsx:113-117 | Only the name changes. |
| AssessmentForm.Form.SelectAnswer | my/assessments/_components/AssessmentForm.tsx:127-142 | Only the question's slot changes, to the chosen level, and every slot stays empty or a level from 1 to 4. |
| AssessmentForm.Form.PushAnswers | my/assessments/_components/AssessmentForm.tsx:76-81 | `quiz` grows by exactly this submission's answers, and nothing else changes. |
| AssessmentForm.Form.OnSubmitAsWritten | my/assessments/_components/AssessmentForm.tsx:73-105 | The posted body is the as-written one built on the old `quiz`. Only an OK response goes to the profile, and submitting ends cleared. |
| AssessmentForm.Form.OnSubmit | my/assessments/_components/AssessmentForm.tsx:73-105 | The intended handler posts one entry per question, in order, each a level from 1 to 4. Only an OK response goes to the profile. |
| ArticleModels.FilterNamesDistinct | articles/new/page.tsx:186 | Filtering a list of files with distinct names keeps the names distinct. |
| ArticleModels.NamesOfCard | articles/new/page.tsx:153-155 | A list with distinct names has as many names as files. |
| LibraryArticles.ApiPath | mylibrary/_components/LibraryArticles.tsx:15-22 | Exactly the four tags `""`, `saved`, `in-progress` and `recommended-for-you` have an endpoint. |
| LibraryArticles.TagOf | mylibrary/_components/LibraryArticles.tsx:14 | The tag is the URL's `tag`, or empty when there is none. |
| LibraryArticles.PathFor | mylibrary/_components/LibraryArticles.tsx:14-22 | Without a tag the whole library is fetched. |
| LibraryArticles.MenuEntriesHavePaths | mylibrary/_components/LibraryArticles.tsx:15-20 | The slugs of "recommended for you" and "in progress" lead to the suggested and last-viewed endpoints. |
| LibraryArticles.SavedHasPath | mylibrary/_components/LibraryArticles.tsx:17 | The slug of "saved" leads to the pinned endpoint. |
| LibraryArticles.AllContentHasNoPath | mylibrary/_components/FilterSideBar.tsx:59-64 | "All content" pushes the tag `all`, which has no endpoint. |
| LibraryArticles.SearchQuery | mylibrary/_components/LibraryArticles.tsx:32 | The query is the URL's `search`, lower-cased, or empty. |
| LibraryArticles.FilteredArticles | mylibrary/_components/LibraryArticles.tsx:33-35 | The shown articles keep the fetched order. They are exactly those whose lower-cased title contains the query. |
| LibraryArticles.EmptyQueryKeepsAll | mylibrary/_components/LibraryArticles.tsx:32-35 | An empty query shows every fetched article. |
| FilterSideBar.DashRuns | mylibrary/_components/FilterSideBar.tsx:19 | After the replacement, no white space is left. |
| FilterSideBar.DashRunsKeepsPlainText | mylibrary/_components/FilterSideBar.tsx:19 | Text without white space is unchanged. |
| FilterSideBar.DashRunsNoLonger | mylibrary/_components/FilterSideBar.tsx:19 | The replacement never makes the text longer. |
| FilterSideBar.DashRunsJoin | mylibrary/_components/FilterSideBar.tsx:19 | A run of white space between two parts becomes a single dash. |
| FilterSideBar.Slug | mylibrary/_components/FilterSideBar.tsx:19 | A slug has no white space and is no longer than the tag. |
| FilterSideBar.SlugIdempotent | mylibrary/_components/FilterSideBar.tsx:19 | Slugging a slug changes nothing. |
| FilterSideBar.SlugOfPlainLower | mylibrary/_components/FilterSideBar.tsx:19 | A lower-case word without white space is its own slug. |
| FilterSideBar.SlugOfTwoWords | mylibrary/_components/FilterSideBar.tsx:19 | Two plain words joined by a space become the words joined by a dash. |
| FilterSideBar.SlugOfThreeWords | mylibrary/_components/FilterSideBar.tsx:19 | Three plain words joined by spaces become the words joined by dashes. |
| FilterSideBar.RecommendedSlug | mylibrary/_components/FilterSideBar.tsx:9-19 | "recommended for you" becomes `recommended-for-you`. |
| FilterSideBar.InProgressSlug | mylibrary/_components/FilterSideBar.tsx:9-19 | "in progress" becomes `in-progress`. |
| FilterSideBar.OneWordSlug | mylibrary/_components/FilterSideBar.tsx:9-19 | "saved" and `all` are their own slugs. |
| FilterSideBar.WithTag | mylibrary/_components/FilterSideBar.tsx:18-20 | `tag` is set to the slug and every other parameter is kept. |
| FilterSideBar.WithSearch | mylibrary/_components/FilterSideBar.tsx:25-33 | A non-empty query is set as `search` and an empty one deletes it. Every other parameter is kept. |
| FilterSideBar.UrlTagNeverHighlightsSpacedLabel | mylibrary/_components/FilterSideBar.tsx:13-81 | After a reload the URL holds the slug, so a menu label with a space in it is never highlighted. |
| FilterSideBar.SideBar.constructor | mylibrary/_components/FilterSideBar.tsx:13-14 | The highlighted tag starts as the URL's `tag`, and the sidebar is not loading. |
| FilterSideBar.SideBar.HandleTagChange | mylibrary/_components/FilterSideBar.tsx:16-23 | The pushed parameters are the old ones with the slugged tag. The raw label is highlighted and loading ends cleared. |
| DesktopNavLinks.LastSegment | components/navbar/DesktopNavLinks.tsx:11 | The last segment holds no `/`. It is a suffix of the path, and a `/` directly precedes it when it is shorter than the path. |
| DesktopNavLinks.CurrentNavLink | components/navbar/DesktopNavLinks.tsx:9-15 | A link is active exactly when its last segment occurs somewhere in the current path. |
| DesktopNavLinks.TrailingSlashAlwaysActive | components/navbar/DesktopNavLinks.tsx:11 | A link path ending in `/` has an empty last segment and is active on every page. |
| DesktopNavLinks.OwnPageIsActive | components/navbar/DesktopNavLinks.tsx:9-15 | A link is always active on its own page. |
| DesktopNavLinks.SubstringNotSegment | components/navbar/DesktopNavLinks.tsx:11 | The test looks for substrings, not segments: `/my/profile` is active on `/profile-x`. |
| DesktopNavLinks.LinkClass | components/navbar/DesktopNavLinks.tsx:35-36 | The link is red exactly on its own page and grey everywhere else. |
| Strings.TrimEmptyIffBlank | utils/api/chats.ts:122 | A line trims to nothing exactly when it is all white space. |
| Strings.SplitJoin | utils/api/chats.ts:96 | Splitting on a separator and joining with it gives back the text. |
| Strings.ToLowerIdempotent | mylibrary/_components/LibraryArticles.tsx:32-34 | Lower-casing twice is lower-casing once. |
| Strings.ParseNatToString | articles/_components/EditArticleForm.tsx:97 | The decimal text of a natural number parses back to that number. |
| StepCounter.Classify | articles/_components/newArticleForm/StepCounter.tsx:42-44 | Every step is exactly one of completed, current or future, according to how its index compares with the current step. |
| StepCounter.CompletedCount | articles/_components/newArticleForm/StepCounter.tsx:40-44 | No more steps are completed than there are. |
| StepCounter.CompletedCountIsMin | articles/_components/newArticleForm/StepCounter.tsx:40-44 | With a non-negative current step, the number of completed steps is the smaller of the current step and the number of steps. |
| StepCounter.CircleLabel | articles/_components/newArticleForm/StepCounter.tsx:71 | The circle's text reads back as the step's one-based position. |
| StepCounter.ConnectorWidth | articles/_components/newArticleForm/StepCounter.tsx:32 | The connecting line spans one step width fewer than the whole row. |
| StepCounter.LabelsRendered | articles/_components/newArticleForm/StepCounter.tsx:73 | A boolean setting applies directly, and a responsive one renders labels when either breakpoint does. |
| StepCounter.WizardLabelsRendered | articles/new/page.tsx:573 | The wizard's setting renders the labels. |
| ValidationStatusIcon.StatusIcon | articles/_components/newArticleForm/ValidationStatusIcon.tsx:10-33 | There is no badge exactly when validity is unknown or the icon is hidden. Otherwise a green check appears exactly for valid and a red cross exactly for invalid. |
| ValidationStatusIcon.BadgeDeterminesValidity | articles/_components/newArticleForm/ValidationStatusIcon.tsx:21-32 | A shown badge determines the validity it reports. |

## Left out

- Rendering, layout, styling and the UI library components: only the decisions they display are modelled (badges, spinners, highlighted entries, link colours).
- Network I/O: every `fetch` and every response is an input. This covers upload URLs and PUTs, the submit POST, the edit syncs, chat requests, the status polls and the library and lookup-list fetches. The same holds for `console.error`, `alert` and toasts.
- Timers: the 2000 ms poll interval, the 500 ms upload delay and the effect scheduling are never timed. Only the order of events is modelled.
- Concurrency: `Promise.all` and the interleavings it allows are left out. Each upload's outcome is an input, taken in input order.
- `TextDecoder` and `ReadableStream`: the stream reader sees text chunks already decoded.
- `JSON.parse`: it is an input function to a small JSON datatype. Event fields of a type other than string count as absent.
- `FileReader` and `URL.createObjectURL`/`revokeObjectURL`: a cover's data URL and preview are inputs to the handlers, and the reader's error path is not modelled.
- `Date` and `toISOString`: the default revoked date and the edit form's date text are inputs. The model keeps only the date part before the `T`.
- `URLSearchParams`: query parameters are a map from name to value, so parameter order and repeated names are not modelled.
- Unicode case mapping: `toLowerCase` is modelled for ASCII letters only, and white space is a fixed set of characters.
- The questionnaire's questions (`assessmentQuestions`), `isUserAllowed` and the navigation link table are code this model does not see. The questions are a parameter, and the role check is left out.
- Radio and select values are integers: the string-to-number conversions of radio values are not modelled beyond `Number("") == 0`.
- The library's `loading` flag and the fetch effect are left out. The model states which endpoint is chosen and which fetched articles are shown.
- NewArticlePage.NewArticleWizard.RunAutoSelect: the effect's dependency list lacks `fileGroups` and it runs on React's schedule. The model runs it whenever it is called.
- The yup and react-hook-form internals: `isDirty` and `isValid` bookkeeping is modelled as a form's dirty flag and the schema predicate.
- Ids chosen in the metadata forms are not checked against the lookup lists, as in the code.
- FileUploadPoll.DeliverEvent: this and `DeliverAll`, `StopTracking`, `Unmount`, `CancelledLoopKeepsStatuses` and `StopRightAfterTrack` describe the corrected hook. The code as written is `DeliverEventAsWritten`, `DeliverAllAsWritten`, `StopTrackingAsWritten` and `UnmountAsWritten`.
- FileUploadPoll.FileTracker.OnPollEvent: the tracker class, with `Stop` and `OnUnmount`, runs the corrected hook. A request in flight at a cancel is therefore dropped, not recorded.
- FileUploadPoll.TrackFile: tracking an identifier again replaces its loop. In the code, the old loop keeps polling and its callbacks still write the entry.
- Strings.ParseIntOrZero: it reads decimal digits only. `parseInt` without a radix also reads a `0x` prefix as hexadecimal, which the page-count and step texts never carry.
- NewArticlePage.GetFileStatus: an empty-string uuid, with `TrackUploads`, counts as present. The code treats `""` as no id. The back end never returns an empty uuid.
- Chats.HandleStreamingResponse: a thrown value that is not an `Error` (reported as "Streaming failed") and a callback that throws are not modelled. A failed read carries its message.

## Findings

| source | as written | input that shows it | evidently intended | confidence | as-written member | corrected member |
|---|---|---|---|---|---|---|
| utils/api/fileUploadPoll.ts:128-132 | The cancel function only clears the pending timer. A request already in flight still calls `onComplete`/`onError`, and a non-JSON answer even schedules a new poll. | Cancel while the first status request is in flight, then the response `{status: "completed"}` arrives: `onComplete` still fires (`FileUploadPoll.CancelDuringRequestAsWritten`; a rescheduling case is `FileUploadPoll.CancelThenReschedulesAsWritten`). | After cancelling, no callback fires and no poll is scheduled (`FileUploadPoll.CancelledStaysSilent`). | not executed | FileUploadPoll.PollStepAsWritten | FileUploadPoll.PollStep |
| utils/api/fileUploadPoll.ts:189-202 | `stopTracking` and the unmount cleanup call that cancel function, so an answer in flight still writes the status map. | Track a file, stop tracking it at once, then its first answer `{status: "completed", analysis: a}` arrives: the entry becomes completed with `a` (`FileUploadPoll.StopThenAnswerRecordedAsWritten`). | A file no longer tracked keeps its last entry (`FileUploadPoll.StopRightAfterTrack`). | not executed | FileUploadPoll.StopTrackingAsWritten | FileUploadPoll.StopTracking |
| articles/new/page.tsx:160 | `handleFileUploaded` checks that some uploaded name is new, then appends the whole batch. | Files `[report.pdf]`, then a batch of `report.pdf` and `notes.pdf` is uploaded: the files become `[report.pdf, report.pdf, notes.pdf]` (`NewArticlePage.DuplicateUploadAsWritten`). | Only `uniqueNewFiles` is appended, so file names stay unique (`NewArticlePage.UploadsKeepNamesDistinct`). | not executed | NewArticlePage.WithUploadsAsWritten | NewArticlePage.WithUploads |
| my/assessments/_components/AssessmentForm.tsx:76-82 | `quiz` is declared once per render of the form (line 40), and `onSubmit` pushes onto it. A retry after a failed post therefore sends the first attempt's answers again, followed by the new ones. | One question answered, a post that fails, then a second submit: the second body has two entries for the one question (`AssessmentForm.RetryDuplicatesAsWritten`). | Each submission posts exactly one entry per question, in question order (the contract of `AssessmentForm.Form.OnSubmit`). | not executed | AssessmentForm.Form.OnSubmitAsWritten | AssessmentForm.Form.OnSubmit |
