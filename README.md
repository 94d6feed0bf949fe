# NKA JSON/POT translator: a verified model of the translation pipeline

This project models the core of the NKA JSON&pot translator in Dafny. The translator is a browser
app that machine-translates the string values of JSON files into several languages. Two parts are
modelled.

**The translation service** (`services/translationService.ts`):
- a walker that lists every string leaf of a document with its path;
- chunking of that list into slices of `chunkSize`, each sent as an object keyed `val_0`, `val_1`, …;
- the prompt renderer;
- a provider client that retries a failed call up to three more times;
- the queue that runs the jobs one after another. It writes each reply back into a copy of the document and reports progress.

**The step wizard of the `App` component** (`App.tsx`): its next, back, translate and start-new
handlers, and the expansion of files × languages into jobs.

How the model represents things:
- **Documents** are a `Json` datatype. Each object lists its fields in JavaScript's key enumeration order.
- **Paths** are sequences of `Key(name)` / `Index(i)` steps.
- **The provider** is an oracle `(prompt, attempt number) -> Reply(fields) | Failure(cause)`. One attempt-number clock runs through the whole run, so a run is a function of the jobs, the settings and the oracle.
- **Imperative code**:
  - The walker's recursive `walk`, the chunking loop, the write-back loop, the retry loop and the job and chunk loops are methods.
  - Each method is proved equal to a specification function (`Extract`, `Chunks`, `ApplyReply`, `Attempts`, `RunQueue`).
  - The properties are proved about those functions.
- **The wizard** is a class whose fields are the component's state.

Replies are written back by position: the reply's `k`-th key in enumeration order goes to the
chunk's `k`-th leaf, whatever the key is called. Keys past the chunk are ignored, and leaves without a
reply entry keep their text. `updateObjectByPath` assigns through `path[path.length - 1]`. A document
that is a bare string therefore has the single path `[]`, and writing to it throws (module code runs in
strict mode). The model keeps this: such a job yields a result only when the reply is empty.

## Model

| member | source | states |
|---|---|---|
| Json.FindKey | services/translationService.ts:26-28 | property lookup finds the first field with that key; `None` exactly when no field has it |
| Json.ObjectLookup | services/translationService.ts:26 | `current[key]` on an object without repeated keys gives `v` exactly when the object has the field `key: v` |
| Json.GetAppend | services/translationService.ts:24-28 | following `p + q` from a value is following `q` from wherever `p` leads, and fails where `p` fails: the walk of all steps but the last, then the last step |
| Json.WithChild | services/translationService.ts:28 | assigning an existing property or element sets that child and leaves every other child as it was |
| Walker.GetValuesToTranslate | services/translationService.ts:6-21 | the pushed items are exactly `Extract(obj, [])` |
| Walker.Walk | services/translationService.ts:8-18 | walking a value appends exactly its extraction below the current path to what was collected |
| Walker.WalkItems | services/translationService.ts:12-13 | the `forEach` over an array appends the elements' extractions by ascending index |
| Walker.WalkFields | services/translationService.ts:14-15 | the `forEach` over `Object.keys` appends the fields' extractions in key order |
| Walker.ExtractSound | services/translationService.ts:9-16 | every extracted item names a string leaf below the prefix that holds exactly the extracted text |
| Walker.ExtractItemsSound | services/translationService.ts:12-13 | items from an array start with an index step no smaller than the first element visited |
| Walker.ExtractFieldsSound | services/translationService.ts:14-15 | items from an object start with a key step of a field no earlier than the first visited |
| Walker.ExtractSeparate | services/translationService.ts:8-17 | no two extracted paths are equal or nested |
| Walker.ExtractItemsSeparate | services/translationService.ts:12-13 | the array part of that separation |
| Walker.ExtractFieldsSeparate | services/translationService.ts:14-15 | the object part of that separation |
| Walker.ExtractComplete | services/translationService.ts:8-17 | every string leaf of the document is extracted, with its path and text |
| Walker.ExtractItemsContains | services/translationService.ts:13 | every element's items appear in its array's extraction |
| Walker.ExtractFieldsContains | services/translationService.ts:15 | every field's items appear in its object's extraction |
| Walker.ExtractExactlyLeaves | services/translationService.ts:6-21 | the extraction of a document is exactly its string leaves: sound, complete, pairwise separate |
| Walker.PrecedesAcross | services/translationService.ts:13-15 | two paths that part right under a container are ordered by their steps there |
| Walker.PrecedesLift | services/translationService.ts:8-17 | an order found inside a child holds inside its parent |
| Walker.ExtractOrdered | services/translationService.ts:8-17 | the items of any value are listed in depth-first walk order |
| Walker.ExtractItemsOrdered | services/translationService.ts:12-13 | array items come by ascending index, each element's leaves before the next element's |
| Walker.ExtractFieldsOrdered | services/translationService.ts:14-15 | object items come in key enumeration order, each field's leaves before the next field's |
| Walker.ExtractInDocumentOrder | services/translationService.ts:6-21 | of any two extracted items the earlier one comes first in the depth-first walk: lower index, or earlier key |
| Walker.Update | services/translationService.ts:23-30 | the write succeeds exactly for a non-empty path to an existing location, which then holds the new value |
| Walker.SetAt | services/translationService.ts:24-28 | walking all steps but the last and assigning at the last succeeds exactly on an existing path and sets it |
| Walker.UpdateOther | services/translationService.ts:23-30 | a write leaves every location separate from its path unchanged |
| Walker.SetAtOther | services/translationService.ts:24-28 | the recursive part of that frame property |
| Walker.UpdateSame | services/translationService.ts:23-30 | writing back the value already at a path gives the same document |
| Walker.SetAtSame | services/translationService.ts:24-28 | the recursive part of that idempotence |
| Walker.WithChildSame | services/translationService.ts:28 | assigning a child its own value changes nothing |
| Walker.UpdateTwice | services/translationService.ts:23-30 | two writes to one path equal the second write alone |
| Walker.SetAtTwice | services/translationService.ts:24-28 | the recursive part of that law |
| Walker.WithChildTwice | services/translationService.ts:28 | the last assignment to a child wins |
| Walker.WriteAll | services/translationService.ts:141-146 | successive `updateObjectByPath` calls: when all go through, no path was empty and the last path written holds the last value |
| Walker.WriteAllUnchanged | services/translationService.ts:141-146 | writing back values that are already in place keeps the document, as long as every path is non-empty |
| Walker.RoundTrip | services/translationService.ts:6-30 | writing every extracted leaf's original text into the copy gives back the document; a bare-string document fails instead |
| Walker.WriteAllEffect | services/translationService.ts:141-146 | writes to separate, existing, non-empty paths all succeed and each path ends up holding its value |
| Walker.WriteAllOther | services/translationService.ts:141-146 | a sequence of writes leaves every location separate from all their paths unchanged |
| Batching.ChunksPartition | services/translationService.ts:119-122 | the chunks concatenate to the value list; each holds 1 to `chunkSize` items, all but the last exactly `chunkSize`; no values give no chunks |
| Batching.ChunkValues | services/translationService.ts:119-122 | the loop stepping `j` by `chunkSize` pushes exactly `Chunks(values, chunkSize)` |
| Batching.Decimal | services/translationService.ts:130 | the decimal text of an index has at least one digit |
| Batching.DecimalInjective | services/translationService.ts:130 | distinct indices give distinct decimal texts |
| Batching.KeyNamesDistinct | services/translationService.ts:130 | different positions get different `val_` keys |
| Batching.KeyedLookup | services/translationService.ts:128-132 | the chunk object has distinct keys, and looking up `val_i` gives item `i`'s text |
| Batching.KeyedKeys | services/translationService.ts:128-132 | the chunk object's keys are exactly `val_0` … `val_{n-1}`: a key is present iff it names a position of the chunk, so an empty chunk gives `{}` |
| Prompt.EscapeCharEscapes | services/translationService.ts:36 | inside a string literal a quote, a backslash and every control character are escaped with a leading backslash, every other character stands for itself, and no escape holds a control character |
| Prompt.EscapePrintable | services/translationService.ts:36 | a string literal's body holds no control character, and is the text itself when nothing needs escaping |
| Prompt.MembersHaveLines | services/translationService.ts:36 | every member's `  "key": "value"` line appears in the members' text |
| Prompt.ChunkJsonHasMembers | services/translationService.ts:36 | the pretty-printed chunk starts with `{`, ends with `}` and holds every member's line |
| Prompt.BuildPromptCarriesChunk | services/translationService.ts:32-37 | `BuildPrompt` (through `RenderPrompt`) opens by naming the target language and carries the chunk's JSON text, hence every `val_i` line, verbatim |
| Prompt.PromptHasChunk | services/translationService.ts:33-37 | whatever the settings, the chunk text occurs verbatim in the prompt |
| Prompt.RuleLinesSelected | services/translationService.ts:39-42 | each rule line is present exactly when its flag is set, in the order formatting, case, numbers |
| Prompt.PromptSectionOrder | services/translationService.ts:32-59 | sections come in the fixed order request, rules, style, instructions, glossary, each at most once, the request naming the language first |
| Prompt.PromptSectionContents | services/translationService.ts:39-56 | the style line is always present; the rules exactly when a flag is set; instructions and glossary exactly when non-empty, verbatim, the glossary last |
| Prompt.SectionInPrompt | services/translationService.ts:32-59 | every section's text occurs verbatim in the prompt |
| Prompt.PromptNamesLanguage | services/translationService.ts:33 | the prompt opens with the request to translate into the named language |
| Prompt.PromptHasStyle | services/translationService.ts:48 | the style, tone and creativity line always occurs |
| Prompt.PromptHasInstructions | services/translationService.ts:50-52 | non-empty custom instructions occur verbatim |
| Prompt.PromptEndsWithGlossary | services/translationService.ts:54-56 | a non-empty glossary ends the prompt verbatim |
| Provider.TranslateChunk | services/translationService.ts:61-100 | the call's outcome and attempt count are exactly `Attempts` of the prompt `buildPrompt` gives for the chunk |
| Provider.RetryPrompt | services/translationService.ts:79-98 | attempting, and retrying on failure while budget is left, yields exactly `Attempts` of the prompt: the first reply, or the error of the last failure once the budget is spent |
| Provider.Attempts | services/translationService.ts:61-98 | the recursive `translateChunk` with budget `r` from attempt `clock` makes between 1 and `r + 1` provider attempts |
| Provider.ErrorMessage | services/translationService.ts:98 | the thrown message is `API Error: ` followed by the cause verbatim, or by the fixed text when the cause is empty |
| Provider.AttemptsFirstSuccess | services/translationService.ts:89-95 | the chunk is translated iff some attempt within the budget replies; the reply returned is the first one, every earlier attempt having failed |
| Provider.AttemptsExhausted | services/translationService.ts:92-98 | a failure comes only after all `r + 1` attempts failed, with the `API Error:` message of the last cause |
| Queue.WriteBackReply | services/translationService.ts:141-146 | the `forEach` over the reply's keys computes exactly `ApplyReply`: reply entry `k` written to chunk item `k` (the writes `ReplyWrites` lists), failing where a write throws |
| Queue.ApplyReplyEffect | services/translationService.ts:124-146 | on the leaves of a chunk the write-back succeeds; covered leaves take their reply entry, uncovered ones keep their text, extra entries change nothing, locations off the chunk's leaves are unchanged |
| Queue.ReplyKeysIgnored | services/translationService.ts:141-146 | the write-back depends on the reply's values in enumeration order, never on its key names |
| Queue.ExtractPending | services/translationService.ts:118-124 | the leaves of a well-formed non-string document are separate, non-empty paths that exist in its copy |
| Queue.PendingAfterReply | services/translationService.ts:139-146 | writing one chunk back leaves the later chunks' leaves in place and separate |
| Queue.RunChunksSent | services/translationService.ts:126-147 | a job that goes through has sent every chunk; one that stops has sent the chunk it stopped at |
| Queue.RunChunksReliable | services/translationService.ts:126-147 | when the provider always answers, every chunk of pending leaves is written back without failure |
| Queue.JobWithoutStrings | services/translationService.ts:118-153 | a job whose document holds no string yields its document unchanged and makes no attempt |
| Queue.JobReliable | services/translationService.ts:117-153 | with a provider that always answers, a well-formed non-string document yields a result |
| Queue.JobFailing | services/translationService.ts:139-157 | with a provider that never answers, a job with a string yields nothing |
| Queue.RunQueueJobs | services/translationService.ts:111-158 | one outcome per job, in job order; each is that job run on its own from its start attempt, so a failed job does not stop later ones |
| Queue.ResultsNameTheirJobs | services/translationService.ts:149-153 | every result carries its job's file name and language code |
| Queue.StringlessJobsPassThrough | services/translationService.ts:111-158 | jobs without strings come back unchanged whatever the provider does |
| Queue.ReliableProviderCompletesAll | services/translationService.ts:111-158 | with a provider that always answers, every job on a well-formed non-string document yields a result |
| Queue.FailingProviderKeepsStringless | services/translationService.ts:111-158 | with a provider that never answers, exactly the jobs without strings yield results |
| Queue.TranslateAndWrite | services/translationService.ts:127-146 | one pass of the chunk loop is one step of `RunChunks` |
| Queue.TranslateJob | services/translationService.ts:112-157 | one job's outcome and next attempt number are `RunJob`'s; it appends exactly `i/T*100`, then `(i+k/n)/T*100` for each chunk `k` it sends (all `n` when the job goes through, up to the failing one otherwise), keeping progress non-decreasing and within [0, `(i+1)/T*100`] |
| Queue.ProcessTranslationQueue | services/translationService.ts:103-162 | the results are the successes of `RunQueue` in job order; the reports are every job's reports in job order followed by 100, so they never decrease, stay in [0, 100] and end at exactly 100, even with no jobs |
| Queue.RunSoFarStep | services/translationService.ts:111-158 | running job `i` from attempt `clock` extends the outcomes by its outcome and the reports by its reports, the rest of the run going on from its next attempt number |
| Queue.PercentMonotone | services/translationService.ts:115-135 | the percentage grows with the position and stays within [0, 100] |
| Queue.PositionStep | services/translationService.ts:135 | within a job the position starts at `i`, grows chunk by chunk and reaches `i + 1` |
| Queue.ReportJobStart | services/translationService.ts:115 | the report `i/T*100` that opens job `i` keeps progress non-decreasing and no higher than the first chunk's report |
| Queue.ReportChunk | services/translationService.ts:134-137 | the report before chunk `k` keeps progress non-decreasing and no higher than the report before chunk `k + 1` |
| Queue.JobReports | services/translationService.ts:115-137 | a job that sends `sent` chunks reports `sent + 1` percentages: `i/T*100` first, then `(i+k/n)/T*100` before chunk `k` |
| Queue.JobReportsMonotone | services/translationService.ts:115-137 | however many chunks a job sends, its reports keep progress non-decreasing and stay below `(i+1)/T*100` |
| Queue.ReportJobEnd | services/translationService.ts:126-157 | wherever a job stops, after its last chunk or at a failed one, its reports are at most `(i+1)/T*100` |
| QueueExample.ExampleLeaves | services/translationService.ts:6-21 | `{"title": "Hello", "count": 3, "tags": ["a", "b"]}` yields title, tags/0 and tags/1, skipping the number |
| QueueExample.ExampleWriteBack | services/translationService.ts:141-146 | the reply `Bonjour, a, b` lands on those three leaves |
| QueueExample.TranslatesExampleDocument | services/translationService.ts:103-162 | the job yields `{"title": "Bonjour", "count": 3, "tags": ["a", "b"]}` after one attempt |
| App.ExpandJobs | App.tsx:80-85 | there are `|files| * |languages|` jobs |
| App.ExpandJobsAt | App.tsx:80-85 | job `f * |languages| + l` pairs file `f` with language `l` (file-outer, language-inner) |
| App.OpenFirstSession | App.tsx:25-46 | with nothing stored, the wizard opens on step 0 with no files or languages and the default settings (chunk size 50), which meet the class invariant |
| App.Wizard.constructor | App.tsx:25-46 | the wizard opens on step 0 with the stored files, model, languages and settings, no results and no error |
| App.Wizard.SetFiles | App.tsx:110-112 | the upload step replaces the file list and nothing else |
| App.Wizard.SetSelectedLanguages | App.tsx:113-114 | the languages step replaces the selection, keeping the step gates |
| App.Wizard.HandleNext | App.tsx:48-61 | step 0 without files and step 1 without languages set their error and stay; otherwise the error clears and the step advances unless already last, so it stays in [0, 3] |
| App.Wizard.HandleBack | App.tsx:63-67 | the step goes down by one, never below 0 |
| App.RunTranslation | App.tsx:80-90 | the run's results are the successes of `RunQueue` over the file × language jobs, and its last report is 100 |
| App.Wizard.HandleTranslate | App.tsx:69-98 | without files or languages only the error is set; otherwise the results are the queue's successes over every file × language job, progress ends at 100 and the wizard is finished |
| App.Wizard.StartRun | App.tsx:75-97 | past the guard the error clears, the results are the run's successes over the jobs of the files and languages it started with, progress is 100, and the wizard is finished and no longer translating |
| App.Wizard.HandleStartNew | App.tsx:100-107 | files, languages and results are emptied, the step returns to 0, the error clears and the wizard is not finished |

## Left out

- The provider SDK call, API key, response schema and `JSON.parse` of the reply text (services/translationService.ts:63-90) are an oracle. A reply is modelled as an object of fields; a reply that parses to a non-object is not modelled.
- The two-second back-off, `console` logging and the progress message texts are timing and I/O, and are left out; only the percentages are modelled, as exact reals.
- `creativity` is kept as its decimal text: it is only rendered into the prompt and forwarded as the sampling temperature.
- Prompt.PromptNamesLanguage, Prompt.PromptHasStyle, Prompt.PromptHasInstructions, Prompt.PromptEndsWithGlossary, Prompt.SectionInPrompt: stated for any chunk text, not only the `JSON.stringify(chunk, null, 2)` text that `BuildPrompt` inserts, because they do not depend on it.
- Walker.Update: it succeeds only on a non-empty path to an existing location. JavaScript differs in four cases. A missing last key is created as a new property. A last index past the end of an array extends the array. An empty path assigns `obj["undefined"]` on an object or array instead of throwing. A key step into an array, or an index step into an object, is coerced by JavaScript instead of failing. The queue only writes paths extracted from the same document, which name existing leaves, so it never meets these cases; the only empty path it meets is that of a bare-string document, where JavaScript throws as the model does.
- Walker.SetAt: the same cases as `Walker.Update`, for the part of the path it walks: a missing last step, a key step into an array and an index step into an object give `None` in the model, where JavaScript creates or coerces the property.
- Queue.ProcessTranslationQueue: requires `chunkSize > 0`. With a size of 0 the chunking loop never ends for a job that has at least one string; a run without jobs, or whose jobs hold no strings, would still finish. The default size is 50 and the settings slider only offers sizes from 10 to 200.
- Strings are sequences of Unicode scalar values, so a lone surrogate such as `\ud800` cannot occur in a model string. Prompt.EscapeChar therefore has no case for the `\udxxx` escape `JSON.stringify` writes for a lone surrogate.
- The `catch` in `handleTranslate` (App.tsx:93-94) is left out. `processTranslationQueue` catches every job's failure itself, so it never throws to it.
- App.Wizard.StartRun: the state while a run is in flight (`isTranslating` set, results emptied, progress at 0, the overlay and its messages) is left out. The method makes the run first and then sets the state the source ends in.
- Browser storage persistence (`useLocalStorage`) is left out; the constructor takes the stored values as parameters.
- File upload, reading, size and line counts, language filtering and sorting, result download and zipping, and all rendering are left out as UI and browser I/O.
- Deep copy is a copy of a `Json` value; JSON numbers keep their literal text and are never read numerically.
