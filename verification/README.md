# LLMAI-writer core, modelled in Dafny

LLMAI-writer is a desktop assistant for writing novels with large language
models. This project models the logic at its core and proves properties of
it. The network, the file system and the Qt user interface are left out.

- **Novel data store** (`data_manager.dfy`, `cache.dfy`).
  - `DataCache.Cache` is the private cache: a bounded, insertion-ordered
    dictionary of items. Each item has an optional expiry tick and a
    last-access tick. Expired entries are dropped lazily, and the
    least-recently-accessed entry is evicted when the cache is full.
  - `DataManager.NovelDataManager` owns the novel document (a JSON object
    with a fixed schema), the `modified` flag, the current file and the
    cache.
  - The cache holds a snapshot of the whole document and per-chapter
    contents. Which writes invalidate which cache entries is modelled
    exactly. Python's shallow copies are modelled by `SharedView`: the
    `metadata` and `chapters` objects of a cached copy are shared with the
    live document.
- **Prompt templates** (`prompt_manager.dfy`): `PromptManager.PromptManager`
  is a registry of templates keyed by name. It supports add, update, delete,
  lookup and category filtering. `_load_templates` is modelled on an
  already-parsed JSON document.
- **Configuration** (`config_manager.dfy`): configparser sections are a map
  of maps. The model covers the key-name conventions, the proxy URL, and
  the name-unique list of custom OpenAI-compatible profiles, which is
  stored as a JSON text.
- **Provider adapters** (`ai_model.dfy` plus one file per provider).
  - Each constructor resolves its API key, model name and URL through the
    chain instance config, then configuration, then a built-in default.
  - Requests are modelled as data: URL, headers, body and proxy.
  - A response is a status code, a body and an already-parsed JSON value.
  - A stream is a sequence of text lines. Each line becomes a `Step`: skip
    it, emit a chunk, stop, or emit a chunk and then stop. `AIModel.Run`
    gives the meaning of a sequence of steps.
- **Generation** (`chapter_generator.dfy`, `novel_generator.dfy`).
  - `ChapterGenerator` checks the volume and chapter indices, gathers the
    neighbouring summaries and the character roster, and renders the
    chapter prompt.
  - `NovelGenerator.NovelGenerator` selects a model by name, either a
    built-in provider or a stored custom profile. It guards every
    generation call when no model is selected.
- **Relationship tab** (`relationships.dfy`).
  - Keys are unordered pairs of names.
  - The pairs are encoded as `"A|B"` for saving and decoded on loading.
  - The relationship map is edited in place.
- **Chapter analysis tab** (`chapter_analysis.dfy`): the analysis prompt
  builder and the extraction of a titled section from the model's reply.

Shared modules:
- `Wrappers`: `Option`, and `Py`, which is a value or a raised exception.
- `Text`: string search, strip, join and decimal rendering.
- `Json`: JSON values with Python's access semantics. A failed access is a
  raise.
- `Dicts`: Python's insertion-ordered dict as a sequence of pairs.

## Model

| member | source | states |
|---|---|---|
| DataCache.ExpireTime | utils/data_manager.py:104-109 | an explicit ttl gives now+ttl, otherwise the cache's default ttl gives now+default, otherwise the entry never expires |
| DataCache.OldestIndex | utils/data_manager.py:133-140 | the chosen victim position lies within the cache |
| DataCache.OldestIsLeastRecent | utils/data_manager.py:133-140 | the victim has the smallest last-access tick; it is the first entry holding that minimum |
| DataCache.OldestKey | utils/data_manager.py:133-140 | there is no victim iff the cache is empty; a victim is a key of the cache |
| DataCache.Capacity | utils/data_manager.py:101-102 | the effective bound is at least max_size and at least 1 (an insert happens even when max_size is 0) |
| DataCache.SetThenGet | utils/data_manager.py:66-112 | after set(k,v,ttl), get(k) before the expiry tick returns v |
| DataCache.SetKeepsOthers | utils/data_manager.py:91-112 | set(k) leaves every other key's item as it was, except an evicted victim |
| DataCache.SetEvictsLeastRecent | utils/data_manager.py:133-140 | inserting a new key into a full cache removes exactly the least-recently-accessed key |
| DataCache.SetKeepsBound | utils/data_manager.py:91-112 | set keeps the cache within its bound, with distinct keys and each item filed under its own key |
| DataCache.GetKeepsBound | utils/data_manager.py:66-89 | get keeps the bound and key invariants and never grows the cache |
| DataCache.AfterGetEntries | utils/data_manager.py:66-89 | every item left after get was already stored under that key, possibly with a refreshed access tick |
| DataCache.AfterSetEntries | utils/data_manager.py:91-112 | every item after set is either the new item or an old item under its old key |
| DataCache.GetKeyed | utils/data_manager.py:17-49 | an item found under a key carries that key |
| DataCache.PutKeepsKeyed | utils/data_manager.py:112 | storing an item under its own key keeps every item filed under its key |
| DataCache.RemoveKeepsKeyed | utils/data_manager.py:114-127 | deleting a key keeps every item filed under its key |
| DataCache.Cache.constructor | utils/data_manager.py:53-63 | an empty, valid cache with the given max size and default ttl |
| DataCache.Cache.Get | utils/data_manager.py:66-89 | absent gives None; expired gives None and deletes the entry; live gives the value and refreshes its access tick |
| DataCache.Cache.Set | utils/data_manager.py:91-112 | stores the item, evicting the least-recent entry first when a new key meets a full cache; the invariant is kept |
| DataCache.Cache.Delete | utils/data_manager.py:114-127 | returns True iff the key was present and removes only that key |
| DataCache.Cache.Clear | utils/data_manager.py:129-131 | the cache is empty |
| DataCache.Cache.Evict | utils/data_manager.py:133-140 | removes the least-recently-accessed entry, nothing else; no-op on an empty cache; the cache stays well formed |
| DataManager.DefaultData | utils/data_manager.py:155-173 | the default document has one entry per schema key, none repeated |
| DataManager.ContentKeyInjective | utils/data_manager.py:231 | content_{v}_{c} names distinct chapters distinctly |
| DataManager.NoUnderscore | utils/data_manager.py:231 | a rendered index contains no underscore, so the key can be split back |
| DataManager.SharedView | utils/data_manager.py:216-218 | a cached shallow copy shows the live metadata and chapters objects and its own snapshot of every other key |
| DataManager.SharedViewSelf | utils/data_manager.py:216-218 | a copy taken from the live document equals the live document |
| DataManager.SharedViewPut | utils/data_manager.py:216-218 | after an in-place write to a shared key, a fresh copy still equals the live document |
| DataManager.SharedViewKeys | utils/data_manager.py:216-218 | a shallow copy has the keys of its snapshot |
| DataManager.SharedViewUnshared | utils/data_manager.py:216-218 | a key that is not shared reads from the snapshot |
| DataManager.ChapterContentOf | utils/data_manager.py:238-254 | reading chapter content succeeds iff the document's chapters entry is an object |
| DataManager.Overwrite | utils/data_manager.py:187-189 | key by key, a known key takes the outline's value when the outline has it and otherwise keeps its own |
| DataManager.OverwriteProps | utils/data_manager.py:187-189 | overwriting keeps the key set and distinctness; each key reads the outline's value if present, else the old one |
| DataManager.OutlineAppliedProps | utils/data_manager.py:187-197 | after set_outline the keys are unchanged; outline is the given outline, or {volumes, characters} when only volumes is given |
| DataManager.AddMissingKeys | utils/data_manager.py:336-338 | after adding unknown keys the document holds exactly the union of both key sets, still distinct |
| DataManager.AddMissingKeeps | utils/data_manager.py:336-338 | a key already present keeps its value |
| DataManager.AddMissingLoaded | utils/data_manager.py:336-338 | a key only in the loaded file gets the loaded value |
| DataManager.MergeGet | utils/data_manager.py:329-338 | load_project's merge holds the union of the keys; a loaded key reads the loaded value, any other key its prior value |
| DataManager.LoadRestoresSaved | utils/data_manager.py:299-356 | loading a saved document onto the defaults restores every key and value of the saved one |
| DataManager.ChapterSummary | utils/data_manager.py:383-388 | None, not an error, when the document has no volumes or its volumes are neither a list nor a string |
| DataManager.ChapterSummaryFound | utils/data_manager.py:383-388 | get_chapter_summary returns the stored summary, Python negative indices included |
| DataManager.ChapterSummaryOutOfRange | utils/data_manager.py:383-388 | an out-of-range volume index gives None |
| DataManager.PositiveCount | utils/data_manager.py:398-399 | words_per_chapter converts iff it is a number or a bool; anything else raises |
| DataManager.PySumRaised | utils/data_manager.py:390-403 | once a partial sum raises, the whole estimate raises |
| DataManager.ChapterParts | utils/data_manager.py:395-402 | one estimate per chapter |
| DataManager.VolumeParts | utils/data_manager.py:394-402 | one estimate per volume |
| DataManager.UniformEstimate | utils/data_manager.py:390-403 | with a positive words_per_chapter w the estimate is w times the number of chapters |
| DataManager.UniformVolume | utils/data_manager.py:394-402 | a volume contributes w times its chapter count |
| DataManager.UniformChapters | utils/data_manager.py:395-402 | a chapter list contributes w times its length |
| DataManager.DefaultGet | utils/data_manager.py:155-173 | each schema key reads its default value |
| DataManager.DefaultKeys | utils/data_manager.py:155-173 | position i of the default document holds the i-th schema key with its default value, so the keys come in the schema's order |
| DataManager.DefaultHasSchema | utils/data_manager.py:155-173 | the default document has every schema key |
| DataManager.SchemaByKeys | utils/data_manager.py:187-189 | a document with at least the keys of a schema document has the schema |
| DataManager.EntriesAfterGet | utils/data_manager.py:66-89 | a cache get keeps every cached copy well typed and consistent with the live document |
| DataManager.EntriesAfterSet | utils/data_manager.py:91-112 | storing a consistent copy keeps the cache consistent |
| DataManager.EntriesAfterRemove | utils/data_manager.py:114-127 | deleting an entry keeps the cache consistent and removes the key |
| DataManager.LookupEntry | utils/data_manager.py:66-89 | a cache hit comes from an entry stored under that key |
| DataManager.CoherentAfterTopWrite | utils/data_manager.py:256-265 | writing a top-level key keeps the cache consistent when that key is shared or no full copy is cached |
| DataManager.CoherentAfterChapterWrite | utils/data_manager.py:222-236 | writing a chapter whose cache entry was dropped keeps the cache consistent |
| DataManager.MetadataOf | utils/data_manager.py:260-261 | get_metadata succeeds iff the metadata entry exists and is an object |
| DataManager.RelationshipsOf | utils/data_manager.py:267-269 | a successful get_relationships yields an object or a list |
| DataManager.MetadataRoundTrip | utils/data_manager.py:256-261 | after set_metadata(k,v), get_metadata(k) is v and other keys are unchanged |
| DataManager.RelationshipsRoundTrip | utils/data_manager.py:263-269 | after set_relationships(r), get_relationships() is r |
| DataManager.RelationshipsLeaveStaleCopy | utils/data_manager.py:263-265 | as written, a cached full copy survives set_relationships and get_outline then returns the old relationships |
| DataManager.OutlineLeavesStaleChapter | utils/data_manager.py:179-203 | as written, a cached chapter survives set_outline although the outline changed that chapter |
| DataManager.NovelDataManager.constructor | utils/data_manager.py:148-177 | the default document, not modified, no file, an empty cache when caching is enabled |
| DataManager.NovelDataManager.MarkModified | utils/data_manager.py:361-362 | sets modified, changes nothing else, keeps the invariants |
| DataManager.NovelDataManager.OverwriteKnown | utils/data_manager.py:187-189 | the known keys are overwritten from the outline |
| DataManager.NovelDataManager.ApplyOutline | utils/data_manager.py:179-200 | the document becomes the outline applied to it, and modified is set |
| DataManager.NovelDataManager.SetOutline | utils/data_manager.py:179-203 | corrected set_outline: applies the outline, sets modified and clears the whole cache, so every cached copy is consistent |
| DataManager.NovelDataManager.SetOutlineAsWritten | utils/data_manager.py:179-203 | set_outline as written: applies the outline, sets modified, drops only novel_data_full |
| DataManager.NovelDataManager.GetOutline | utils/data_manager.py:205-220 | returns the cached copy or a fresh one and caches it; with a consistent cache the result equals the live document |
| DataManager.NovelDataManager.SetChapterContent | utils/data_manager.py:222-236 | stores the content under content_{v}_{c} iff chapters is an object, sets modified and drops that chapter's cache entry |
| DataManager.NovelDataManager.StoreChapter | utils/data_manager.py:232-236 | once chapters holds a dict: the text is stored and reads back, the document keeps its keys, modified is set, that chapter's cache entry is gone and a coherent cache stays coherent |
| DataManager.NovelDataManager.GetChapterContent | utils/data_manager.py:238-254 | returns the cached or stored content, caches only a found value; with a consistent cache it equals the stored content |
| DataManager.NovelDataManager.SetMetadata | utils/data_manager.py:256-258 | sets metadata[k]=v and modified iff metadata is an object |
| DataManager.NovelDataManager.SetRelationships | utils/data_manager.py:263-265 | corrected: stores the relationships, sets modified and drops novel_data_full |
| DataManager.NovelDataManager.SetRelationshipsAsWritten | utils/data_manager.py:263-265 | as written: stores the relationships and sets modified, cache untouched |
| DataManager.NovelDataManager.SaveProject | utils/data_manager.py:271-297 | succeeds iff the write did; clears modified and records the path only when the manager's own data was saved; the document and the cache invariant are kept |
| DataManager.NovelDataManager.AddMissingKeys | utils/data_manager.py:336-338 | unknown loaded keys are appended |
| DataManager.NovelDataManager.LoadProject | utils/data_manager.py:299-356 | a non-object or failed read changes nothing and gives None; an object is merged, modified cleared, file set, cache reseeded |
| DataManager.NovelDataManager.GetTotalWordCountEstimate | utils/data_manager.py:390-403 | returns the sum of the per-chapter estimates, raising where Python raises |
| DataManager.NovelDataManager.AddVolumeEstimates | utils/data_manager.py:394-402 | the loop over volumes computes the sum of the volume estimates |
| DataManager.NovelDataManager.AddChapterEstimates | utils/data_manager.py:395-402 | the loop over chapters adds the sum of the chapter estimates to the running count |
| DataManager.NovelDataManager.ClearData | utils/data_manager.py:364-377 | default document, not modified, no file, empty cache |
| DataManager.NovelDataManager.ResetDocument | utils/data_manager.py:366-374 | the default document, not modified, no file |
| PromptManager.Stamp | utils/prompt_manager.py:35 | created_at is kept when given, otherwise the current time |
| PromptManager.GetOrDefault | utils/prompt_manager.py:53-69 | dict.get: the stored value when present, the default otherwise |
| PromptManager.FromDictToDict | utils/prompt_manager.py:37-69 | from_dict(to_dict(t)) reproduces all five fields |
| PromptManager.FromDictDefaults | utils/prompt_manager.py:53-69 | from_dict of {} has name, content, description "" and category "general" |
| PromptManager.Store | utils/prompt_manager.py:160-176 | once a load step raises, the result stays raised |
| PromptManager.StoreAllKeyed | utils/prompt_manager.py:160-176 | loading keeps keys distinct and each template filed under its own name |
| PromptManager.StoreAllLastWins | utils/prompt_manager.py:160-166 | for duplicate names in the list form, the last record wins |
| PromptManager.SkipsNonDicts | utils/prompt_manager.py:162-166 | a list entry that is not a dict is skipped |
| PromptManager.SavedList | utils/prompt_manager.py:203 | the saved list has one record per template |
| PromptManager.SaveLoadRoundTrip | utils/prompt_manager.py:160-176 | loading the saved list restores the registry exactly |
| PromptManager.StoreAllRaised | utils/prompt_manager.py:160-176 | a raise in a prefix of the records makes the whole load raise |
| PromptManager.Updated | utils/prompt_manager.py:248-258 | only the fields passed as non-None change; name and created_at are kept |
| PromptManager.Filter | utils/prompt_manager.py:280-281 | exactly the templates of the given category |
| PromptManager.FilterInOrder | utils/prompt_manager.py:280-281 | the filter keeps dictionary order: filtering a joined dictionary is filtering its front then its back, and one entry is kept iff its category matches |
| PromptManager.PromptManager.constructor | utils/prompt_manager.py:131-152 | an empty registry |
| PromptManager.PromptManager.LoadTemplates | utils/prompt_manager.py:154-186 | a parsed file is loaded in list or dict form; a missing or unreadable file leaves the registry as it was |
| PromptManager.PromptManager.StoreTemplates | utils/prompt_manager.py:160-176 | the loop stores the records one by one, as the load specification says |
| PromptManager.PromptManager.AddTemplate | utils/prompt_manager.py:212-235 | False and no change for an existing name; otherwise exactly that template is appended |
| PromptManager.PromptManager.UpdateTemplate | utils/prompt_manager.py:237-262 | False for an unknown name; True iff a field was passed; only the passed fields change |
| PromptManager.PromptManager.DeleteTemplate | utils/prompt_manager.py:264-275 | True iff the name was present; only that entry is removed |
| PromptManager.PromptManager.GetTemplate | utils/prompt_manager.py:277-278 | None iff the name is absent; otherwise the template filed under it |
| PromptManager.PromptManager.TemplatesByCategory | utils/prompt_manager.py:280-281 | exactly the templates whose category equals the argument |
| PromptManager.PromptManager.AllTemplates | utils/prompt_manager.py:283-287 | every stored template, in dictionary order, each exactly once (position i holds the i-th stored template) |
| PromptManager.PromptManager.FormatPrompt | utils/prompt_manager.py:289-311 | None for an unknown name; the formatted text, or the raw content when formatting fails |
| Config.InitialSections | utils/config_manager.py:7-37 | TypeError for a source that is not a path, a dict or None; none or a missing file gives no sections |
| Config.OptionOr | utils/config_manager.py:52-53 | an option's value or its fallback |
| Config.GetConfig | utils/config_manager.py:76-79 | the option's value when section and option exist, otherwise the fallback |
| Config.ApiKey | utils/config_manager.py:60-66 | None without API_KEYS; otherwise the value of {t}_api_key, or None |
| Config.ModelName | utils/config_manager.py:68-74 | None without MODELS; otherwise the value of {t}_model, or None |
| Config.BooleanValue | utils/config_manager.py:47 | configparser's boolean words, both directions |
| Config.ProxySettings | utils/config_manager.py:41-58 | None without PROXY or when disabled; a malformed enabled or port raises; an enabled (or default-enabled) section gives http and https both http://{host}:{port}, with the defaults 127.0.0.1 and 10808 |
| Config.DefaultProxy | utils/config_manager.py:52-53 | an empty PROXY section gives http://127.0.0.1:10808 |
| Config.ProxyPortRoundTrip | utils/config_manager.py:53-57 | the port can be read back from the proxy URL |
| Config.NameOf | utils/config_manager.py:170 | reading a profile's name succeeds iff the profile is an object |
| Config.FirstNamed | utils/config_manager.py:169-173 | the first profile with the name, with no earlier match; raises only on a non-object before a match |
| Config.WithoutNamed | utils/config_manager.py:188-191 | removes every profile with that name and keeps the rest; shorter iff one matched |
| Config.StoredModels | utils/config_manager.py:114-124 | [] when the section is absent or the stored text does not parse |
| Config.ProfileNamed | utils/config_manager.py:198-213 | the first profile with the name, or None when none has it |
| Config.Duplicate | utils/config_manager.py:144-146 | the duplicate check is the first-match search on the new profile's name |
| Config.AddedIsFound | utils/config_manager.py:126-158 | an appended new profile is found at the end of the list |
| Config.DeletedIsGone | utils/config_manager.py:182-196 | after delete, no profile has the name |
| Config.WrittenIsRead | utils/config_manager.py:114-158 | a list written back is read back unchanged |
| Config.FirstNamedStep | utils/config_manager.py:169-173 | one loop step of the search, as the specification function says |
| Config.FindNamed | utils/config_manager.py:169-173 | the loop returns the first-match search's result |
| Config.ConfigManager.constructor | utils/config_manager.py:16-17 | the manager holds the given sections and path |
| Config.ConfigManager.Create | utils/config_manager.py:7-37 | TypeError for a bad source; otherwise the initial sections, with the path kept only for a path |
| Config.ConfigManager.SetConfig | utils/config_manager.py:81-90 | the option is set, creating the section if needed; nothing else changes |
| Config.ConfigManager.GetCustomModel | utils/config_manager.py:198-213 | the first stored profile with the name, or None |
| Config.ConfigManager.AddCustomModel | utils/config_manager.py:126-158 | False and no change on a duplicate name; otherwise the profile is appended and written back |
| Config.ConfigManager.UpdateCustomModel | utils/config_manager.py:160-180 | False when the section is absent or no name matches; otherwise only the first match is replaced |
| Config.ConfigManager.DeleteCustomModel | utils/config_manager.py:182-196 | removes every profile with the name; True iff one was removed, in both directions; nothing changes unless True |
| AIModel.Lookup | models/gpt_model.py:20-21 | an instance config value, or None when absent |
| AIModel.FromManager | models/gpt_model.py:22-23 | a configuration value as JSON, None when unset |
| AIModel.Or | models/gpt_model.py:37 | Python's `a or b` |
| AIModel.ConfigOr | models/gpt_model.py:40 | the configured option or the hardcoded default |
| AIModel.InstanceUrlFirst | models/gpt_model.py:36-42 | instance api_url or base_url wins; otherwise the configured URL, otherwise the default |
| AIModel.ProxyUrl | models/ai_model.py:14 | the proxy passed to requests is the https entry of the proxy settings |
| AIModel.ChatBody | models/gpt_model.py:77-81 | the body is {model, messages:[{role:"user", content:prompt}], stream} |
| AIModel.Extracted | models/gpt_model.py:94-95 | a reply is the extracted text iff extraction did not raise |
| AIModel.Run | models/gpt_model.py:131-142 | a stream yields at most one chunk per line |
| AIModel.Then | models/gpt_model.py:131-142 | running two pieces: the second runs only if the first was exhausted |
| AIModel.RunAppend | models/gpt_model.py:131-142 | running a concatenation is running one piece and then the other |
| AIModel.SkipChangesNothing | models/claude_model.py:132-143 | a skipped line changes nothing |
| AIModel.StopEndsStream | models/gpt_model.py:133-134 | nothing after a line that breaks the loop or raises is read |
| AIModel.ChunksComeFromSteps | models/gpt_model.py:131-142 | every chunk yielded came from one of the lines |
| AIModel.Trace | generators/chapter_generator.py:114-122 | with a callback, each chunk produces two events |
| AIModel.TraceShape | generators/chapter_generator.py:114-122 | the yields are the chunks in order; with a callback, each yield is preceded by the callback on the same chunk |
| AIModel.YieldsAppend | generators/chapter_generator.py:114-122 | the yields of joined traces are joined |
| AIModel.Steps | models/gpt_model.py:131-132 | one step per line |
| AIModel.Pump | models/gpt_model.py:131-142 | the streaming loop emits exactly the trace of the run |
| AIModel.TraceSnoc | generators/chapter_generator.py:114-122 | one more chunk adds its events at the end |
| AIModel.Stream | models/gpt_model.py:120-142 | a non-200 status is refused with its body; otherwise the events of the run |
| GptModel.Resolve | models/gpt_model.py:9-58 | raises iff the proxy raises or no key is set; the instance key, even empty, wins; model and URL as chained |
| GptModel.New | models/gpt_model.py:9-58 | a missing configuration manager raises; otherwise the resolution |
| GptModel.ExplicitEmptyKeyIsKept | models/gpt_model.py:45-49 | an explicitly empty instance key is not replaced and construction raises |
| GptModel.Request | models/gpt_model.py:72-88 | the URL, the chat body and a Bearer authorization header |
| GptModel.ContentOfReply | models/gpt_model.py:94-95 | choices[0].message.content is returned |
| GptModel.Generate | models/gpt_model.py:83-95 | non-200 raises with status and body; otherwise the extracted content |
| GptModel.StreamStep | models/gpt_model.py:131-142 | data: [DONE] stops; non-data lines are skipped; only non-empty content is emitted |
| GptModel.GenerateStream | models/gpt_model.py:120-142 | refused on non-200; otherwise the chunks of the lines, in order |
| GptModel.NoEmptyChunk | models/gpt_model.py:139-141 | no empty chunk is yielded |
| GptModel.DoneEndsStream | models/gpt_model.py:133-134 | the stream ends at data: [DONE] |
| ClaudeModel.UrlChoice | models/claude_model.py:35-37 | instance base_url (not api_url), then configured URL, then the default |
| ClaudeModel.Resolve | models/claude_model.py:9-57 | raises iff the proxy raises or no key is set; model and URL as chained |
| ClaudeModel.New | models/claude_model.py:9-57 | a missing configuration manager raises; otherwise the resolution |
| ClaudeModel.Request | models/claude_model.py:71-88 | x-api-key and anthropic-version 2023-06-01 headers and the chat body |
| ClaudeModel.ContentOfReply | models/claude_model.py:94-95 | content[0].text is returned |
| ClaudeModel.Generate | models/claude_model.py:83-95 | non-200 raises with status and body; otherwise the extracted text |
| ClaudeModel.StreamStep | models/claude_model.py:132-143 | blank and data: [DONE] lines are skipped; only text_delta text is emitted; no line stops |
| ClaudeModel.GenerateStream | models/claude_model.py:121-143 | refused on non-200; otherwise the chunks of the lines |
| ClaudeModel.DoneIsSkipped | models/claude_model.py:134-135 | data: [DONE] does not end the stream |
| ClaudeModel.NeverStops | models/claude_model.py:132-143 | a run without stopping steps is exhausted |
| ClaudeModel.StreamNeverStops | models/claude_model.py:132-143 | the stream only ends when the lines run out |
| CustomOpenAIModel.NamedSectionUrl | models/custom_openai_model.py:80-86 | looking up the URL under the profile's name raises iff the name is unhashable |
| CustomOpenAIModel.Resolve | models/custom_openai_model.py:12-86 | raises iff the proxy raises, key or model stays falsy, the URL stays falsy, or the URL search looks up a list or dict name as a section; otherwise the whole record: the proxy settings, the chosen name, and the key, model and URL each taken from its fallback chain |
| CustomOpenAIModel.UrlOrder | models/custom_openai_model.py:52-86 | the URL is a truthy instance api_url, else its base_url; without either a non-empty CUSTOM_OPENAI.api_url; failing that the name must be a section whose non-empty api_url is used |
| CustomOpenAIModel.KeyOrder | models/custom_openai_model.py:34-68 | the key is the instance's when it has one, else a non-empty custom_openai key, else the key stored under the profile's name |
| CustomOpenAIModel.New | models/custom_openai_model.py:12-86 | a missing configuration manager raises; otherwise the resolution |
| CustomOpenAIModel.NamedKeyFallback | models/custom_openai_model.py:61-68 | with no instance or generic key, the key stored under the profile's name is used |
| CustomOpenAIModel.Request | models/custom_openai_model.py:100-115 | Bearer authorization and the chat body |
| CustomOpenAIModel.Content | models/custom_openai_model.py:130-140 | a reply without choices is returned as str(result) |
| CustomOpenAIModel.TextOfCompletion | models/custom_openai_model.py:133-137 | a completion-style choices[0].text is returned |
| CustomOpenAIModel.Generate | models/custom_openai_model.py:117-140 | non-200 raises; otherwise the extracted content |
| CustomOpenAIModel.Payload | models/custom_openai_model.py:195-196 | the data: prefix is removed when present, otherwise the line is kept |
| CustomOpenAIModel.StreamStep | models/custom_openai_model.py:187-214 | blank and data: [DONE] lines and malformed JSON are skipped; no line stops the stream |
| CustomOpenAIModel.PrefixIsOptional | models/custom_openai_model.py:195-199 | a line with and without the data: prefix step alike |
| CustomOpenAIModel.GenerateStream | models/custom_openai_model.py:173-214 | refused on non-200; otherwise the chunks with callback events before each yield |
| CustomOpenAIModel.DoneIsSkipped | models/custom_openai_model.py:191-192 | data: [DONE] does not end the stream |
| SiliconFlowModel.NameChoice | models/siliconflow_model.py:22 | the name is never empty |
| SiliconFlowModel.Resolve | models/siliconflow_model.py:12-66 | raises iff the proxy raises, no key is set, or the URL (instance, then SILICONFLOW.api_url, then the default) is falsy, as an explicit api_url="" is; model and URL as chained; the proxy is the configured proxy settings |
| SiliconFlowModel.BuiltInModel | models/siliconflow_model.py:33-62 | with nothing configured the model is deepseek-ai/DeepSeek-V2 |
| SiliconFlowModel.New | models/siliconflow_model.py:12-66 | a missing configuration manager raises; otherwise the resolution |
| SiliconFlowModel.Request | models/siliconflow_model.py:80-93 | Bearer authorization and the chat body |
| SiliconFlowModel.Content | models/siliconflow_model.py:108-120 | empty choices raise |
| SiliconFlowModel.MessageWithoutContent | models/siliconflow_model.py:111-112 | a message without content gives "" |
| SiliconFlowModel.Generate | models/siliconflow_model.py:95-120 | non-200 raises; otherwise the extracted content |
| SiliconFlowModel.StreamStep | models/siliconflow_model.py:167-197 | data: [DONE] stops; only data lines are parsed; only non-empty content is emitted |
| SiliconFlowModel.GenerateStream | models/siliconflow_model.py:153-198 | refused on non-200; otherwise the chunks with callback events |
| SiliconFlowModel.NoEmptyChunk | models/siliconflow_model.py:183-187 | no empty chunk is yielded |
| SiliconFlowModel.DoneEndsStream | models/siliconflow_model.py:172-173 | the stream ends at data: [DONE] |
| OllamaModel.Resolve | models/ollama_model.py:18-63 | never needs a key; raises iff the proxy raises or the URL (instance, then OLLAMA.api_url, then the default) is falsy, as an empty OLLAMA.api_url is; model and URL as chained; the proxy is the configured proxy settings |
| OllamaModel.LocalDefaults | models/ollama_model.py:36-60 | with nothing configured: model llama3 at http://localhost:11434/api/chat |
| OllamaModel.New | models/ollama_model.py:18-63 | a missing configuration manager raises; otherwise the resolution |
| OllamaModel.Request | models/ollama_model.py:87-103 | the chat body with no extra headers |
| OllamaModel.MessageContent | models/ollama_model.py:109-110 | a reply that is not an object raises |
| OllamaModel.NoMessageNoContent | models/ollama_model.py:110 | a reply without a message gives the default "" |
| OllamaModel.Generate | models/ollama_model.py:99-115 | non-200 raises; otherwise message.content; the callback sees the whole text once |
| OllamaModel.RecordStep | models/ollama_model.py:160-174 | a done record ends the stream after its content, if any; only non-empty content is emitted |
| OllamaModel.StreamStep | models/ollama_model.py:151-179 | blank lines and malformed records are skipped; each other line is one record |
| OllamaModel.GenerateStream | models/ollama_model.py:142-179 | refused on non-200; otherwise the chunks with callback events |
| OllamaModel.NoEmptyChunk | models/ollama_model.py:167-171 | no empty chunk is yielded |
| OllamaModel.DoneEndsStream | models/ollama_model.py:162-174 | a done record ends the stream; later lines are not read |
| OllamaModel.RecordsContinue | models/ollama_model.py:167-174 | a record that is not done emits its content and the stream goes on |
| ChapterGenerator.Get | generators/chapter_generator.py:127-157 | dict.get with a default |
| ChapterGenerator.CharacterLine | generators/chapter_generator.py:131-135 | a character is one line "- name: …" ending in a newline; a non-dict raises |
| ChapterGenerator.Extend | generators/chapter_generator.py:131-135 | appending to the roster text, propagating a raise |
| ChapterGenerator.Roster | generators/chapter_generator.py:131-135 | an empty roster is "" |
| ChapterGenerator.RosterOne | generators/chapter_generator.py:131-135 | a one-character roster is that character's line |
| ChapterGenerator.RosterAppend | generators/chapter_generator.py:131-135 | the roster of joined lists is the joined rosters, in order |
| ChapterGenerator.ExtendAssociative | generators/chapter_generator.py:131-135 | appending is associative, raises included |
| ChapterGenerator.RosterSnoc | generators/chapter_generator.py:131-135 | one more character adds its line at the end |
| ChapterGenerator.RosterRaiseStays | generators/chapter_generator.py:131-135 | once a character raises, the roster raises |
| ChapterGenerator.CharactersInfo | generators/chapter_generator.py:131-135 | the loop builds exactly the roster |
| ChapterGenerator.Prepare | generators/chapter_generator.py:124-174 | raises iff Python does; a ready result carries the defaults and the neighbouring summaries |
| ChapterGenerator.PrepareParams | generators/chapter_generator.py:124-174 | the key-by-key construction equals the specification |
| ChapterGenerator.BadVolume | generators/chapter_generator.py:137-143 | a bad or non-dict volume gives an error message, not params |
| ChapterGenerator.BadChapter | generators/chapter_generator.py:145-154 | a bad or non-dict chapter gives an error message |
| ChapterGenerator.Defaults | generators/chapter_generator.py:127-157 | default title 未命名小说, volume title 第{v+1}卷, chapter title 第{c+1}章, and "" elsewhere |
| ChapterGenerator.Neighbours | generators/chapter_generator.py:159-172 | the previous summary only when c>0, the next only when c<len-1, otherwise "" |
| ChapterGenerator.Labelled | generators/chapter_generator.py:207-208 | a summary line appears only for a non-empty summary |
| ChapterGenerator.PromptLines | generators/chapter_generator.py:176-218 | the 27 prompt lines; the neighbour lines carry their labels only when present |
| ChapterGenerator.Render | generators/chapter_generator.py:191-218 | no lines render as "" |
| ChapterGenerator.RenderContains | generators/chapter_generator.py:191-218 | every line occurs in the rendered prompt |
| ChapterGenerator.Prompt | generators/chapter_generator.py:176-218 | the prompt renders iff its lines do |
| ChapterGenerator.PromptHasLine | generators/chapter_generator.py:191-218 | every prompt line occurs in the prompt |
| ChapterGenerator.DropIndent | generators/chapter_generator.py:191-218 | an indented line contains its text |
| ChapterGenerator.PromptContents | generators/chapter_generator.py:176-218 | the prompt contains the titles and summary verbatim, and each neighbour line when present |
| ChapterGenerator.ChapterPrompt | generators/chapter_generator.py:41-43 | an invalid index gives the ValueError message; otherwise the prompt |
| ChapterGenerator.GenerateChapter | generators/chapter_generator.py:41-84 | ValueError before any model call on a bad index; otherwise the model's reply to the prompt |
| ChapterGenerator.ReYield | generators/chapter_generator.py:114-122 | the chunks are re-yielded unchanged and in order, each after its callback |
| ChapterGenerator.GenerateChapterStream | generators/chapter_generator.py:87-122 | ValueError before any model call on a bad index; otherwise the model's chunks re-yielded |
| NovelGenerator.UpdateGet | novel_generator.py:69 | dict.update: the new value for an updated key, the old one otherwise |
| NovelGenerator.Explicit | novel_generator.py:60-66 | api_key and base_url enter the config only when truthy |
| NovelGenerator.InstanceConfigExplicit | novel_generator.py:60-69 | truthy explicit arguments are kept unless kwargs override them |
| NovelGenerator.InstanceConfigKwargs | novel_generator.py:68-69 | kwargs are merged after the explicit arguments |
| NovelGenerator.Merge | novel_generator.py:94-98 | the merge succeeds iff the stored profile is an object |
| NovelGenerator.MergePrecedence | novel_generator.py:96-98 | {**stored, **instance}: explicit values win |
| NovelGenerator.SelectBuiltIn | novel_generator.py:74-90 | each built-in name gives its own adapter, or a raise |
| NovelGenerator.SelectProfile | novel_generator.py:91-102 | a stored profile gives a custom OpenAI model; no profile gives ValueError |
| NovelGenerator.Select | novel_generator.py:58-107 | a built-in name is never unsupported; any other selection is a custom profile |
| NovelGenerator.BuiltInDispatch | novel_generator.py:74-90 | the seven built-in names map to their adapters |
| NovelGenerator.BuiltInIgnoresCase | novel_generator.py:74 | names are matched case-insensitively |
| NovelGenerator.UnknownWithoutProfile | novel_generator.py:91-102 | an unknown name with no profile is unsupported |
| NovelGenerator.ProfileSelected | novel_generator.py:91-99 | a stored profile selects a custom model built from the merged config |
| NovelGenerator.SelectBuiltInModel | novel_generator.py:74-90 | the dispatch equals the specification |
| NovelGenerator.NovelGenerator.SelectProfileModel | novel_generator.py:91-101 | any other name is looked up among the stored custom profiles; a missing or empty profile is unsupported, a found one is merged with the given settings, which win |
| NovelGenerator.DefaultModel | novel_generator.py:37-55 | the default model is attempted only when General.default_model_name is set; a failure keeps the current model |
| NovelGenerator.NovelGenerator.constructor | novel_generator.py:19-35 | the generator starts with the default model, if any |
| NovelGenerator.NovelGenerator.SelectModel | novel_generator.py:58-106 | returns the selection; current_model changes only on success |
| NovelGenerator.NovelGenerator.InitializeDefaultModel | novel_generator.py:37-55 | never raises; sets the default model as specified |
| NovelGenerator.NovelGenerator.OutlineModel | novel_generator.py:116-117 | RuntimeError without a model, otherwise the model is used |
| NovelGenerator.NovelGenerator.GenerateChapter | novel_generator.py:145-157 | RuntimeError without a model; otherwise the chapter generator's result |
| NovelGenerator.NovelGenerator.GenerateChapterStream | novel_generator.py:159-169 | RuntimeError without a model; otherwise the chunks unchanged and in order |
| Relationships.BelowTotal | ui/character_relationship_tab.py:130-135 | string order is total, asymmetric and irreflexive |
| Relationships.Sorted | ui/character_relationship_tab.py:135 | sorting a pair gives the two names in order |
| Relationships.Key | ui/character_relationship_tab.py:130-135 | None iff a name is empty or both are equal; otherwise the sorted pair of the two names |
| Relationships.KeySymmetric | ui/character_relationship_tab.py:130-135 | key(a,b) == key(b,a) |
| Relationships.Shown | ui/character_relationship_tab.py:137-148 | the edit box shows the description of the pair's key |
| Relationships.ShownAfterPut | ui/character_relationship_tab.py:137-148 | after an update the pair shows the new description in either order; other pairs are unchanged |
| Relationships.Encode | ui/character_relationship_tab.py:203-206 | "A|B" with the bar right after the first name |
| Relationships.Savable | ui/character_relationship_tab.py:197-209 | the saved dict has distinct keys |
| Relationships.Encoded | ui/character_relationship_tab.py:203-206 | each pair is saved as its encoding with its description |
| Relationships.EncodeInjective | ui/character_relationship_tab.py:203-206 | distinct pairs without a bar in the first name encode distinctly |
| Relationships.SavableIsEncoded | ui/character_relationship_tab.py:197-209 | saving distinct pairs encodes each one, in order |
| Relationships.FromEval | ui/character_relationship_tab.py:160-164 | a tuple evaluated from the key gives the sorted pair |
| Relationships.FromBar | ui/character_relationship_tab.py:170-182 | split at the first bar; both parts non-empty give the sorted pair |
| Relationships.FromBarEncode | ui/character_relationship_tab.py:170-177 | decoding an encoded key gives back the pair |
| Relationships.DecodeAsWritten | ui/character_relationship_tab.py:156-190 | as written: a key that looks like a tuple goes only to eval |
| Relationships.Decode | ui/character_relationship_tab.py:156-190 | corrected: a key that eval does not read is tried as "A|B" |
| Relationships.DecodeExtends | ui/character_relationship_tab.py:156-190 | the corrected decoder agrees wherever the code decodes |
| Relationships.LoadEntriesAsWritten | ui/character_relationship_tab.py:150-195 | the as-written load keeps keys distinct |
| Relationships.LoadEntries | ui/character_relationship_tab.py:150-195 | the corrected load keeps keys distinct |
| Relationships.Loaded | ui/character_relationship_tab.py:150-195 | data that is not a dict loads nothing |
| Relationships.AsRaw | ui/character_relationship_tab.py:156-157 | saved string keys are read back as string keys |
| Relationships.RawPrefix | ui/character_relationship_tab.py:150-209 | reading back a prefix of the saved dict equals saving that prefix |
| Relationships.DecodeEncoded | ui/character_relationship_tab.py:160-177 | the corrected decoder reads back every encoded key |
| Relationships.LoadSnoc | ui/character_relationship_tab.py:150-195 | loading one more new key appends it |
| Relationships.LoadEncoded | ui/character_relationship_tab.py:150-209 | loading the encoded map restores it |
| Relationships.RoundTrip | ui/character_relationship_tab.py:150-209 | save then load reproduces the relationship map |
| Relationships.RoundTripAsWrittenLoses | ui/character_relationship_tab.py:160-166 | as written, the pair ("(Ann)", "Bob (Jr)") is lost by save then load |
| Relationships.RelationshipTab.constructor | ui/character_relationship_tab.py:15-18 | an empty map bound to the data manager |
| Relationships.RelationshipTab.LoadRelationships | ui/character_relationship_tab.py:150-195 | the map becomes the corrected load of the data |
| Relationships.RelationshipTab.SaveRelationships | ui/character_relationship_tab.py:197-209 | the data manager's relationships become the encoded map and modified is set, through set_relationships as written, so the manager's cache is left as it was |
| Relationships.RelationshipTab.DeleteRelationship | ui/character_relationship_tab.py:244-262 | removes only that pair and marks modified only if it existed |
| Relationships.RelationshipTab.AddOrUpdateRelationship | ui/character_relationship_tab.py:220-242 | an invalid pair changes nothing; a blank description deletes; otherwise sets the stripped description and marks modified |
| ChapterAnalysis.ValueOf | ui/chapter_analysis_tab.py:359-366 | a given info value is the stored one |
| ChapterAnalysis.Pick | ui/chapter_analysis_tab.py:378-396 | at most one piece per candidate |
| ChapterAnalysis.PickConcat | ui/chapter_analysis_tab.py:378-396 | one more candidate adds its piece when it is switched on |
| ChapterAnalysis.AppendIsConcat | ui/chapter_analysis_tab.py:378-396 | the successive += gives the start followed by the chosen pieces in order |
| ChapterAnalysis.PickedAreOn | ui/chapter_analysis_tab.py:378-396 | every chosen piece was switched on |
| ChapterAnalysis.PickedIffOn | ui/chapter_analysis_tab.py:378-396 | a piece is chosen iff it is switched on |
| ChapterAnalysis.InfoLines | ui/chapter_analysis_tab.py:359-366 | each info line is its label, its value and a newline |
| ChapterAnalysis.InfoOn | ui/chapter_analysis_tab.py:359-366 | an info line is on iff its value is non-empty |
| ChapterAnalysis.OptionsOn | ui/chapter_analysis_tab.py:378-396 | a requirement is on iff its option is set |
| ChapterAnalysis.AnalysisPrompt | ui/chapter_analysis_tab.py:354-398 | the prompt always ends with the Markdown-format instruction |
| ChapterAnalysis.PromptShape | ui/chapter_analysis_tab.py:354-398 | opening, info lines, chapter block, request header, requirements, closing, in that order |
| ChapterAnalysis.ChapterLines | ui/chapter_analysis_tab.py:368-373 | titles joined with 、 and contents with \n\n---\n\n, in the given order |
| ChapterAnalysis.InfoLinesDistinct | ui/chapter_analysis_tab.py:359-366 | the four info lines start with distinct labels |
| ChapterAnalysis.InfoWhenGiven | ui/chapter_analysis_tab.py:359-366 | an info line appears iff its value is non-empty |
| ChapterAnalysis.InfoOnlyWhenGiven | ui/chapter_analysis_tab.py:359-366 | a line with an info label appears only for a non-empty value |
| ChapterAnalysis.AllOrNoRequests | ui/chapter_analysis_tab.py:378-396 | all options give all six requirements; none gives none |
| ChapterAnalysis.RequestWhenChosen | ui/chapter_analysis_tab.py:378-396 | requirement k is written iff option k is chosen, whatever the other options |
| ChapterAnalysis.AddInfo | ui/chapter_analysis_tab.py:359-366 | the loop adds exactly the given info lines |
| ChapterAnalysis.AddRequests | ui/chapter_analysis_tab.py:378-396 | the loop adds exactly the chosen requirements |
| ChapterAnalysis.BuildAnalysisPrompt | ui/chapter_analysis_tab.py:354-398 | the built prompt equals the specification |
| ChapterAnalysis.HeadingHoldsTitle | ui/chapter_analysis_tab.py:464-475 | a heading occurrence contains the title |
| ChapterAnalysis.HeadingsHoldTitle | ui/chapter_analysis_tab.py:464-475 | "## t" and "# t" occurrences contain t |
| ChapterAnalysis.SectionStart | ui/chapter_analysis_tab.py:464-479 | a start exists iff t occurs; it is an occurrence of "## t", "# t" or t |
| ChapterAnalysis.EndStep | ui/chapter_analysis_tab.py:482-502 | per title the end only moves down, to an occurrence of that title; no "## t" is skipped below it |
| ChapterAnalysis.SectionEnd | ui/chapter_analysis_tab.py:482-504 | the end lies within the text |
| ChapterAnalysis.SectionEndIsNextTitle | ui/chapter_analysis_tab.py:482-504 | the end is the text length or an occurrence of another title, with no "## other" between start and end |
| ChapterAnalysis.NoOtherTitle | ui/chapter_analysis_tab.py:504 | with no other title after the start, the end is the text length |
| ChapterAnalysis.EndAfterStart | ui/chapter_analysis_tab.py:482-506 | the end is not before the start |
| ChapterAnalysis.Section | ui/chapter_analysis_tab.py:464-506 | "" when the title does not occur |
| ChapterAnalysis.SectionFrom | ui/chapter_analysis_tab.py:504-506 | the stripped slice is a substring of the text |
| ChapterAnalysis.SectionInText | ui/chapter_analysis_tab.py:464-506 | the extracted section is a substring of the input |
| ChapterAnalysis.SectionToEnd | ui/chapter_analysis_tab.py:504-506 | with no other title after the start, the section runs to the end of the text |
| ChapterAnalysis.ExtractSection | ui/chapter_analysis_tab.py:464-506 | the loop computes exactly the specified section |

## Left out

- The Qt widgets, dialogs, message boxes and signals, the relationship graph drawing, and the statistics, settings and styling tabs are user interface and are not modelled. `_process_analysis_result` of the analysis tab is one of these.
- Network transport is not modelled (aiohttp sessions, timeouts, real HTTP). A response is a status code, a body and a parsed JSON value. A stream is a sequence of text lines.
- `json.loads`, `json.dumps`, Python's `eval` of relationship keys and `str.format` are function parameters. Their results are inputs.
- File reads and writes are not modelled. `save_project` gets whether the write succeeded. `load_project` gets the parsed document or a failure. The `save_after_*` flags of the prompt manager only write files.
- `time.time()` is an integer tick argument, not a float clock.
- configparser's `DEFAULT` section, its interpolation and its lowercasing of option names are not modelled. Only ASCII lower-casing is modelled; Python's Unicode `lower()` is not.
- Python reference aliasing is modelled only where it is observable in the cache (`SharedView`). Other shallow copies handed to callers are treated as values.
- The Gemini and ModelScope adapters wrap vendor SDKs. Whether their construction succeeds is a parameter (`sdkBuilds`) of model selection.
- `generators/outline_generator.py` is not part of this model. Outline generation beyond the no-model guard is out of reach, so `NovelGenerator.NovelGenerator.OutlineModel` only states the guard.
- `PromptHistory`, `load_novel_data` and `save_novel_data` are left out. They are file I/O and history bookkeeping.
- The `asyncio` name used without an import in `models/ollama_model.py` (lines 180, 184) and `generators/chapter_generator.py` (line 118) is treated as if imported.
- The dead `_create_chapter_prompt` in `generators/chapter_generator.py` is left out. It refers to an undefined name.
- The exact texts of exception messages are left out; only whether a call raises is modelled. The `is_*_enabled` methods always return True and are not modelled.
- `ChapterGenerator.Prepare`: volume and chapter indices are natural numbers, so Python's negative-index access is not covered.
- `ChapterGenerator.CharacterLine`: the character fields are rendered with a JSON approximation of Python's `str()`. Only the leading "- name: " and the final newline are stated.
- `ChapterAnalysis.AnalysisPrompt`: chapter titles and contents are strings. The source would raise TypeError for other values in `join`.
- `Relationships.Decode`: `eval` is narrowed to "a pair of strings or nothing". The list or tuple branch of the raw key only records whether it has two items. Exception swallowing is folded into "nothing".
- `Relationships.RoundTrip`: it needs only the first name of each pair to be free of "|". It also assumes that `eval` reads none of the encoded keys as a tuple.
- `PromptManager.PromptManager.AddTemplate`: template names are JSON values compared structurally, so `1` and `True` (or `0` and `False`) are two names, while the source's dict treats them as one key. This applies to every registry operation.
- `DataCache.Cache.Set`: the 1/True and 0/False key equivalence of Python dicts is not modelled; cache keys are strings.
- `DataManager.NovelDataManager.LoadProject`: the parsed document is assumed to have distinct keys, as a parsed JSON object does.
- `Json.Str`: Python's `repr` of a string escapes every non-printable character (such as `\x0b`). The model escapes only backslash, the quote in use, newline, carriage return and tab. This affects every `str()` of a container: character lines, analysis info lines and `CustomOpenAIModel.Content`'s fallback `str(result)`.
- `DataManager.NovelDataManager.GetTotalWordCountEstimate`: JSON numbers are integers (`JNum(n: int)`), so a float `words_per_chapter` read from a file (such as 2500.5) cannot be expressed. The estimate covers integer documents only.
- `Config.ProxySettings`: the port is parsed as an optional sign and ASCII digits. `getint` also accepts underscores between digits ("10_808") and non-ASCII decimal digits; the model raises on those.

## Findings

| source | as written | input that shows it | evidently intended | confidence | as-written member | corrected member |
|---|---|---|---|---|---|---|
| utils/data_manager.py:263-265 | `set_relationships` stores the relationships but leaves the cached `novel_data_full` copy in place | a cached outline, then `set_relationships(r)` with new `r`, then `get_outline()` returns the old relationships | drop `novel_data_full` as `set_outline` does | not executed | DataManager.RelationshipsLeaveStaleCopy | DataManager.NovelDataManager.SetRelationships |
| utils/data_manager.py:179-203 | `set_outline` drops only `novel_data_full`, so cached `chapter_content_*` entries survive an outline that changes the chapters | a cached chapter, then `set_outline` with a different `chapters`, then `get_chapter_content` returns the old text | invalidate the chapter entries too | not executed | DataManager.OutlineLeavesStaleChapter | DataManager.NovelDataManager.SetOutline |
| ui/character_relationship_tab.py:160-182 | a key that starts with "(" and ends with ")" is only given to `eval`; when that fails, the key is dropped without trying the "A\|B" form | the pair ("(Ann)", "Bob (Jr)") is saved as "(Ann)\|Bob (Jr)" and is lost on reload | try every key format before ignoring a key | not executed | Relationships.RoundTripAsWrittenLoses | Relationships.RoundTrip |
