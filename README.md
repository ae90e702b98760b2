# Verified model of the organizer task store and the title sanitiser

This project models two pieces of sequential logic from a set of plugins for a
note-taking app:

- **Project organizer** (`project-organizer/main.ts`). A side panel keeps a
  project as a `ProjectData` record with two ordered task lists: `tasks`
  (active, user-ordered) and `archived`. The panel appends tasks, reorders them
  with two `splice` calls, moves tasks between the lists by id and deletes by
  id. It writes the whole record back to the project file after every change.
  `TaskStore` (`task_store.dfy`) gives each operation's effect as a function on
  values and proves its properties. These are permutation, relative order,
  first-match removal, no-op on an absent id, undoing a move, and unique ids
  within and across the two lists. `ProjectOrganizer` (`project_organizer.dfy`)
  is the panel itself: a class whose methods update the `tasks`, `archived`
  and persisted-file fields in place.
- **Title generator** (`ai-title-generator/main.ts`). It asks a language model
  for a note title, then sanitises the answer and renames the note.
  `TitleText` (`title_text.dfy`) writes the sanitiser's regular expressions
  out character by character. It also covers `trim`, the rename target path
  and the folder/file-name split of that path. `TitleGenerator`
  (`title_generator.dfy`) models the provider dispatch and the two commands'
  decisions.

Inputs the code gets from its host become parameters:
- the parsed project file (`Option<ProjectData>`);
- the id a new task gets (the source reads it from the clock);
- the note's content and file;
- the settings;
- the language model's answer (its text, or the error its request raised).

## Model

| member | source | states |
|---|---|---|
| `TaskStore.FindIndex` | project-organizer/main.ts:300 | `findIndex` by id: -1 exactly when no entry has the id, otherwise the position of the first entry with it |
| `TaskStore.RemoveAt` | project-organizer/main.ts:302 | `splice(i, 1)`: one element shorter, elements before `i` in place, later ones shifted down by one, multiset loses exactly `s[i]` |
| `TaskStore.InsertAt` | project-organizer/main.ts:294 | `splice(i, 0, x)`: one longer, `x` at `i`, neighbours in order, multiset gains exactly `x` |
| `TaskStore.Move` | project-organizer/main.ts:292-294 | the reorder keeps the length and the multiset (a permutation), puts the old `s[from]` at `to`, and removing that position from both sides gives equal sequences, so all other tasks keep their relative order |
| `TaskStore.MoveUndo` | project-organizer/main.ts:292-294 | `moveTask(i, j)` followed by `moveTask(j, i)` restores the original list |
| `TaskStore.MoveInPlace` | project-organizer/main.ts:185-186 | a move onto the same index changes nothing (the drop handler skips that case) |
| `TaskStore.MoveUpSwaps` | project-organizer/main.ts:196-201 | the up button swaps a task with its predecessor and leaves the rest in place |
| `TaskStore.MoveDownSwaps` | project-organizer/main.ts:203-208 | the down button swaps a task with its successor and leaves the rest in place |
| `TaskStore.MoveTask` | project-organizer/main.ts:292-294 | a move leaves `archived` unchanged and `tasks` a permutation of the same length holding the moved task at `to`; with that task taken out of both, the old and new lists are equal, so every other task keeps its relative order |
| `TaskStore.ArchiveTask` | project-organizer/main.ts:299-303 | absent id: nothing changes; present id: exactly the first entry with it leaves `tasks`, the given task is appended to `archived`, and the total count is kept |
| `TaskStore.UnarchiveTask` | project-organizer/main.ts:310-314 | mirror of archiving: the first archived entry with the id is removed and the task appended to `tasks`; absent id is a no-op; total count kept |
| `TaskStore.DeleteTask` | project-organizer/main.ts:321-325 | only the chosen list changes; the first entry with the id is removed from it, and an absent id changes nothing |
| `TaskStore.AddTask` | project-organizer/main.ts:279-285 | exactly one task appended to `tasks`, earlier tasks and `archived` unchanged |
| `TaskStore.MoveTaskKeepsUniqueIds` | project-organizer/main.ts:292-294 | moving keeps ids unique within and across both lists |
| `TaskStore.ArchiveTaskKeepsUniqueIds` | project-organizer/main.ts:299-303 | archiving keeps ids unique within and across both lists |
| `TaskStore.UnarchiveTaskKeepsUniqueIds` | project-organizer/main.ts:310-314 | unarchiving keeps ids unique within and across both lists |
| `TaskStore.DeleteTaskKeepsUniqueIds` | project-organizer/main.ts:321-325 | deleting keeps ids unique within and across both lists |
| `TaskStore.AddTaskKeepsUniqueIds` | project-organizer/main.ts:279-285 | adding a task whose id is new to both lists keeps ids unique |
| `TaskStore.EmptyProjectHasUniqueIds` | project-organizer/main.ts:256-259 | the empty fallback store satisfies the id invariant |
| `TaskStore.ArchiveThenUnarchive` | project-organizer/main.ts:299-314 | with unique ids, archiving then unarchiving a task restores `archived` and puts the task at the end of `tasks`, its old position removed; the active count is restored |
| `ProjectOrganizer.ProjectOrganizerView.constructor` | project-organizer/main.ts:70-74 | a new view holds the empty store and no project file |
| `ProjectOrganizer.ProjectOrganizerView.SaveProjectData` | project-organizer/main.ts:262-270 | without a project file nothing is written; otherwise the file's stored content becomes the whole in-memory store |
| `ProjectOrganizer.ProjectOrganizerView.LoadProjectData` | project-organizer/main.ts:247-260 | without a project file nothing changes; a parsed file replaces the store; a failed read or parse gives empty `tasks` and `archived` |
| `ProjectOrganizer.ProjectOrganizerView.SelectProjectFile` | project-organizer/main.ts:237-245 | the chosen file becomes current and is loaded |
| `ProjectOrganizer.ProjectOrganizerView.AddTask` | project-organizer/main.ts:272-289 | no project file: nothing happens; an empty title or path (modal check at line 377): nothing happens; otherwise the new task is appended and saved, the current file's entry becoming the new store and every other file's entry unchanged; unique ids stay unique when the id is fresh |
| `ProjectOrganizer.ProjectOrganizerView.MoveTask` | project-organizer/main.ts:292-297 | for in-range indices `tasks` becomes `Move(old tasks, from, to)`, `archived` is unchanged, the current file's entry becomes the new store and no other file changes, the id invariant is kept |
| `ProjectOrganizer.ProjectOrganizerView.ArchiveTask` | project-organizer/main.ts:299-308 | the store becomes `ArchiveTask(old store, task)`; when the id was found the save writes the new store to the current file only; otherwise nothing is written; the id invariant is kept |
| `ProjectOrganizer.ProjectOrganizerView.UnarchiveTask` | project-organizer/main.ts:310-319 | the store becomes `UnarchiveTask(old store, task)`; when found the save writes the new store to the current file only; otherwise nothing is written; the id invariant is kept |
| `ProjectOrganizer.ProjectOrganizerView.DeleteTask` | project-organizer/main.ts:321-330 | the store becomes `DeleteTask(old store, task, isArchived)`; when found the save writes the new store to the current file only; otherwise nothing is written; the id invariant is kept |
| `TitleText.StripQuotes` | ai-title-generator/main.ts:122 | removes one leading quote if present and one trailing quote if present (and not the same character), nothing else: the result is the infix after the leading quote, at most one shorter at the end |
| `TitleText.ReplaceForbidden` | ai-title-generator/main.ts:124 | same length; each forbidden character becomes '-', every other character stays in place; no forbidden character remains |
| `TitleText.Truncate` | ai-title-generator/main.ts:126-128 | the prefix of length `min(|s|, n)` |
| `TitleText.SanitizeTitle` | ai-title-generator/main.ts:120-130 | at most 100 characters, none forbidden, and the longest prefix within 100 of the stripped-and-replaced title (all of it when that fits) |
| `TitleText.SanitizeKeepsInterior` | ai-title-generator/main.ts:122-128 | each character strictly inside the quotes and within the first 100 keeps its shifted place: forbidden ones become '-', all others (interior apostrophes included) survive |
| `TitleText.SanitizeFixedPoint` | ai-title-generator/main.ts:120-130 | a title of at most 100 characters with no forbidden character and no quote at either end is returned unchanged |
| `TitleText.SanitizeLoneQuote` | ai-title-generator/main.ts:122 | a lone quote sanitises to the empty title; `'x'` gives `x`; `"a"b"` gives `a-b` |
| `TitleText.Trim` | ai-title-generator/main.ts:58 | `trim()` yields the infix between the first and last non-whitespace characters; what it drops on each side is whitespace; it is empty exactly for blank text |
| `TitleText.TrimIdempotent` | ai-title-generator/main.ts:69-70 | trimming an already trimmed answer changes nothing |
| `TitleText.RenamePath` | ai-title-generator/main.ts:133 | the target path ends in `title.md`; when the note has a parent it starts with the parent's path followed by '/', otherwise it is just `title.md` |
| `TitleText.RenameStaysInFolder` | ai-title-generator/main.ts:132-135 | for a sanitised title the target path's folder is the parent's path (None when `file.parent` is null) and its file name is `title.md` |
| `TitleGenerator.CallAI` | ai-title-generator/main.ts:137-153 | the provider picks exactly one backend; an empty OpenAI or Anthropic key (lines 151-153, 178-180) and an unknown provider are errors before any request; Ollama needs no key; a request carries the given prompt |
| `TitleGenerator.DefaultSettingsNeedKey` | ai-title-generator/main.ts:13-21 | with the default settings the first call fails with the missing OpenAI key error |
| `TitleGenerator.Reply` | ai-title-generator/main.ts:174 | a backend's reply is its answer trimmed: the infix of the answer that starts at the first non-whitespace character, with only whitespace dropped on either side and none left at either end, empty exactly when the answer is blank; a request error passes through unchanged (also lines 200 and 218) |
| `TitleGenerator.Excerpt` | ai-title-generator/main.ts:66 | the prompt carries the first `min(|content|, 2000)` characters of the note |
| `TitleGenerator.GenerateTitle` | ai-title-generator/main.ts:50-83 | no file or blank note: no request; otherwise the request is the dispatch of the excerpt prompt; a dispatch or request error becomes the error notice; after a request, a non-blank answer always renames, to the sanitised trimmed answer in the parent folder, and a blank answer always ends in "failed to generate" |
| `TitleGenerator.CorrectTitle` | ai-title-generator/main.ts:85-118 | the request carries the current base name; after a request, a non-blank answer renames exactly when its sanitised form differs from the base name and is "already good" exactly when it equals it; a blank answer always ends in "failed to correct" |
| `TitleGenerator.CorrectCleanTitleKeepsName` | ai-title-generator/main.ts:99-108 | an answer repeating a clean base name (trimmed, at most 100 characters, no forbidden character, no quote at either end) leaves the note as it is |
| `TitleGenerator.GeneratedNoteStaysInFolder` | ai-title-generator/main.ts:69-72 | for a non-blank note, an allowed request and a non-blank answer, title generation renames the note to the sanitised answer, in its own folder, as a file name of at most 100 characters plus `.md` |
| `TitleGenerator.CorrectedNoteStaysInFolder` | ai-title-generator/main.ts:99-104 | for an allowed request and a non-blank answer whose sanitised form differs from the base name, title correction renames the note to it, in its own folder, as a file name of at most 100 characters plus `.md` |

## Left out

- Rendering, modals, context menus, drag-and-drop listeners, notices, ribbon and command registration, settings tabs and plugin lifecycle. These are host UI; the model only keeps the guards the UI applies before calling the store.
- `ProjectOrganizer.ProjectOrganizerView.MoveTask`: requires both indices to be positions of `tasks`, which `moveTask` itself never checks. The up and down buttons (lines 196-208) and a drag between rows of the same list give positions. The drop handler (lines 180-187), however, accepts any `text/plain` payload that `parseInt` reads as a number, for example text dragged in from elsewhere. A negative `fromIndex` makes `splice` count from the end, so `-1` moves the last task to the drop target. A `fromIndex` at or past the end removes nothing and inserts `undefined` at the target. Neither case is modelled.
- The JSON text of the project file. `JSON.parse`/`JSON.stringify` and `vault.read`/`vault.modify` are library I/O. Loading takes the parse result as `Option<ProjectData>`; saving stores the record itself in `persisted`. The source does no shape check after parsing, so a file of another shape is not modelled. Because of this, the save-then-load round trip is not proved.
- Task ids from `Date.now()`. They come in as a parameter; uniqueness is kept only when the caller supplies a fresh id.
- `openTaskFile` and `getAbstractFileByPath`, which are host file lookup.
- HTTP requests, request bodies, the instruction wording of prompts, and response JSON shapes. The model keeps the endpoint, model, key and the variable part of each prompt; the backend's reply is a parameter.
- `loadSettings` (`Object.assign` over stored data), which is library merge semantics.
- `vault.read` failing in `generateTitle` (outside its `try`), and `fileManager.renameFile` itself. The model computes the target path only.
- The grammar corrector plugin (`ai-grammar-corrector/main.ts`): editor glue plus a copy of the title generator's dispatch.
- `TitleText.Trim`: models ASCII whitespace only, not the Unicode space characters JavaScript's `trim` also removes.
- `TitleGenerator.Excerpt`: counts characters, whereas `content.slice(0, 2000)` (line 66) counts UTF-16 code units, so a note with characters outside the Basic Multilingual Plane gets a different excerpt.
- `TitleText.SanitizeTitle`: counts characters, whereas JavaScript's `length` and `slice` count UTF-16 code units, so a title with characters outside the Basic Multilingual Plane is cut differently.
- `async`/`await`. Every operation runs to completion in order, so operations are plain functions and methods.
