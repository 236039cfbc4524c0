# compiam core, modelled in Dafny

This project models three small pieces of compiam, a toolbox for
computational analysis of Indian art music. All other compiam code is out of scope.

* **Dunya corpora client** (`compiam/dunya/__init__.py`, module `Dunya`).
  A `Corpora` object names the Dunya collection it reads, either
  `dunya-<tradition>` or its Creative Commons version `dunya-<tradition>-cc`.
  * It lists the collection's documents, renaming `external_identifier` to
    `mbid`.
  * It gathers the metadata of each recording into seven lists:
    recordings, artists, concerts, works, raagas, taalas and instruments.
    Each recording's reads run inside a per-recording `try` that skips
    failures.
  * It deduplicates six of the lists by identifier with a dict
    comprehension and stores the result in its fields.
  * It also chooses the writer for an annotation subtype, and builds the
    file and directory names of downloaded mp3s.
  * The remote database is a parameter made of three maps to decoded JSON
    answers. `query` is keyed by the request path. `getRecording` and
    `getConcert` are keyed by the recording's or concert's identifier. A
    key missing from a map means a failed request.
  * The Python dict semantics the deduplication relies on are in module
    `PyDict`: insertion order, and "last assignment wins".
* **Complex autoencoder wrapper for sancara search**
  (`compiam/melody/pattern/sancara_search/__init__.py`, module
  `SancaraSearch`).
  * The fixed-order configuration check.
  * Unpacking the configuration into attributes, and the model's input
    size.
  * The sample rate of the CQT request.
  * The loop that cuts the frame matrix into stride-1 windows of
    `length_ngram` rows, flattens and standardises them, then stacks them
    for the network.
  * The CQT front end, the standardisation and the network's forward pass
    are parameters.
* **Stroke-classification tool listing**
  (`compiam/timbre/stroke_classification/__init__.py`, module
  `StrokeClassification`). The tools of the package, with `*` after those
  that have a pre-trained model. The tool list and the model registry are
  inputs.

Supporting modules:

| module | file | contents |
|---|---|---|
| `Wrappers` | `wrappers.dfy` | `Option`, `Result` |
| `Strings` | `strings.dfy` | `in` on strings, `join`, one-character `replace`, `str` of an integer |
| `Json` | `json.dfy` | decoded JSON values, with Python indexing, iteration and truthiness |

Some consequences of the code that the model states:

* **Window count.** `to_amp_phase` iterates
  `range(0, len(cqt) - length_ngram)`. It therefore produces `T - L`
  windows, not `T - L + 1`: the full window starting at `T - L` is never
  built (`Ngrams`, `WindowsAreRows`). With `T <= L` it produces no
  windows, and stacking then fails (`TooFewFramesFails`).
* **No rollback.** A recording whose reads fail part-way is left out of
  the recording list. Whatever was appended for it before the failure
  stays in the other lists (`StepArtistFailure`, `StepLists`, `NoRollback`).
* **Output order.** The deduplicated lists come out in the order in which
  each key first occurs, with the last record for each key
  (`DeduplicateOrder`, `DeduplicateLastWins`).
* **When the whole call fails.** The deduplication runs outside the
  per-recording `try`. A gathered record without its `mbid`/`uuid`, or
  with a list or dict as its key, therefore fails the whole
  `_get_metadata` call, not just one recording (`DeduplicateKeys`).
* **The `sr` argument.** `extract_features` computes a sample rate from
  its `sr` argument and then drops it. It calls `get_cqt` with
  `sr=None`, so the configured rate is always used (`ExtractFeatures`).

## Model

| member | source | states |
|---|---|---|
| Dunya.CollectionName | compiam/dunya/__init__.py:54-56 | the name is `dunya-` followed by the tradition, followed by `-cc` exactly in the Creative Commons case (length, prefix and suffix) |
| Dunya.CollectionNameInjective | compiam/dunya/__init__.py:54-56 | for a fixed version, equal collection names mean equal traditions |
| Dunya.CollectionNameAmbiguous | compiam/dunya/__init__.py:54-56 | tradition `t-cc` without `cc` names the same collection as tradition `t` with `cc` |
| Dunya.Corpora.constructor | compiam/dunya/__init__.py:42-56 | keeps the token and tradition, sets the collection name, starts with no metadata |
| Dunya.RenameIdentifier | compiam/dunya/__init__.py:67 | succeeds exactly on a dict with `external_identifier`; `mbid` then holds its value, `external_identifier` is gone, every other key is unchanged |
| Dunya.RenameAll | compiam/dunya/__init__.py:66-68 | same count and order as the listed documents, each one renamed; fails iff some document cannot be renamed |
| Dunya.ListedDocuments | compiam/dunya/__init__.py:64 | the `documents` list of the answer to the collection request; a failed request, a missing key or a non-list fails (used by `Collection`) |
| Dunya.Collection | compiam/dunya/__init__.py:62-69 | what `get_collection` returns for an answer: the listed documents, each renamed, or a failure (properties in `RenameAll`, `Corpora.GetCollection`) |
| Dunya.Corpora.GetCollection | compiam/dunya/__init__.py:62-69 | the loop returns exactly the renamed listing of the collection's request, or fails with it |
| Dunya.Corpora.AppendEach | compiam/dunya/__init__.py:126-136 | appending the elements one by one gives the list followed by the elements |
| Dunya.Corpora.ParseRecording | compiam/dunya/__init__.py:119-139 | the per-recording `try` body leaves the seven lists as the reference step `Step` says |
| Dunya.RecordingField | compiam/dunya/__init__.py:121-135 | `get_recording(rec["mbid"])[name]` as the elements its `for` loop visits; a missing id, failed request, missing key or non-list fails the read (properties in `StepSpec`, `StepLists`) |
| Dunya.AddArtistSpec | compiam/dunya/__init__.py:121-124 | one artist entry is read completely iff it is readable; it then adds its instrument and, if lead, its artist; it only ever appends to those two lists |
| Dunya.AddArtistsCompletes | compiam/dunya/__init__.py:121-124 | the artist loop completes iff every entry is readable |
| Dunya.AddArtistsResult | compiam/dunya/__init__.py:121-124 | a completed artist loop appends the lead artists and every instrument, in entry order, and changes nothing else |
| Dunya.AddArtistsGrow | compiam/dunya/__init__.py:121-124 | whether or not the loop completes, only the artist and instrument lists change, and only by appending |
| Dunya.AddArtist | compiam/dunya/__init__.py:122-124 | one pass of the artist loop: reads `lead`, appends `artist` when it is truthy, then appends `instrument`; the flag is false when a read raises (properties in `AddArtistSpec`) |
| Dunya.AddArtists | compiam/dunya/__init__.py:121-124 | the artist loop, stopping at the first entry whose reads raise (properties in `AddArtistsCompletes`, `AddArtistsResult`, `AddArtistsGrow`, `AddArtistsStopsAt`) |
| Dunya.AddArtistsStopsAt | compiam/dunya/__init__.py:121-124 | when entry `k` is the first unreadable one, the loop leaves the appends of entries `0..k-1` and whatever entry `k` appended before raising |
| Dunya.Step | compiam/dunya/__init__.py:119-139 | the whole per-recording `try` body, with the lists as they stand when a read raises (properties in `StepSpec`, `StepArtistsUnread`, `StepArtistFailure`, `StepLists`) |
| Dunya.Accumulate | compiam/dunya/__init__.py:116-139 | the seven lists after the loop has visited each recording of the collection in order (properties in `RecordingListIsProcessed`) |
| Dunya.StepSpec | compiam/dunya/__init__.py:119-139 | a recording's id is appended iff all five reads succeed; no list ever shrinks |
| Dunya.StepArtistsUnread | compiam/dunya/__init__.py:121 | a recording whose `artists` read fails contributes nothing |
| Dunya.StepArtistFailure | compiam/dunya/__init__.py:121-124 | when artist entry `k` is the first unreadable one, the entries before it keep their artists and instruments, entry `k` keeps the artist it appended, and no other list changes |
| Dunya.StepLists | compiam/dunya/__init__.py:119-139 | with all artist entries read, each of the concert, work, raaga and taala lists gets its contribution exactly when every read up to and including its own succeeds, whatever the later reads do; the id only when all succeed |
| Dunya.NoRollback | compiam/dunya/__init__.py:119-139 | a recording whose artists are read but which fails later adds no id, yet keeps its artists and instruments |
| Dunya.RecordingListIsProcessed | compiam/dunya/__init__.py:116-139 | the recording list is the ids of the processed recordings, in collection order |
| Dunya.ProcessedIdsMembers | compiam/dunya/__init__.py:116-139 | an id is in the recording list iff some processed recording carries it |
| Dunya.NoFailureKeepsAll | compiam/dunya/__init__.py:116-139 | with no failing recording, the recording list is every id of the collection, in order |
| Dunya.DictKey | compiam/dunya/__init__.py:143-148 | the key a value becomes in a dict: lists and dicts are unhashable, `True`/`False` equal `1`/`0` (properties in `ComprehensionSucceeds`) |
| Dunya.Comprehension | compiam/dunya/__init__.py:143-148 | `{r[field]: r for r in records}`, one assignment per record in order, raising on a missing or unhashable key (properties in `ComprehensionSucceeds`, `ComprehensionIsFromPairs`) |
| Dunya.Deduplicate | compiam/dunya/__init__.py:143-148 | `list(...values())` of the comprehension (properties in the `Deduplicate*` lemmas) |
| Dunya.ComprehensionSucceeds | compiam/dunya/__init__.py:143-148 | the dict comprehension succeeds iff every record has a hashable key field |
| Dunya.ComprehensionIsFromPairs | compiam/dunya/__init__.py:143-148 | the comprehension is the dict built from the (key, record) pairs in order |
| Dunya.DeduplicateFromPairs | compiam/dunya/__init__.py:143-148 | the deduplicated list is the values, in dict order, of the dict built from the (key, record) pairs |
| Dunya.DeduplicateKeys | compiam/dunya/__init__.py:141-148 | deduplication fails iff some record lacks a usable key; otherwise the output's keys are pairwise distinct and are exactly the input's keys |
| Dunya.DeduplicateSource | compiam/dunya/__init__.py:143-148 | every output record is an input record with no later record sharing its key |
| Dunya.DeduplicateLastWins | compiam/dunya/__init__.py:143-148 | last value wins, for every output record |
| Dunya.DeduplicateOrder | compiam/dunya/__init__.py:143-148 | the output keys are in the order of their first occurrence in the input |
| Dunya.DeduplicateIdempotent | compiam/dunya/__init__.py:143-148 | deduplicating a deduplicated list returns it unchanged |
| Dunya.DistinctRecordsKept | compiam/dunya/__init__.py:143-148 | records whose keys are already distinct pass through unchanged |
| Dunya.Deduplicated | compiam/dunya/__init__.py:141-148 | the returned dict: the recording list as gathered, the other six deduplicated, artists, concerts, works and instruments by `mbid` and raagas and taalas by `uuid`; any failing deduplication fails the call |
| Dunya.Gathered | compiam/dunya/__init__.py:101-149 | what `_get_metadata` returns: a failed listing fails, otherwise the deduplicated lists of the recordings visited in order (the loops `Corpora.GetMetadataLists` and `Corpora.GetMetadata` are proved equal to it) |
| Dunya.Corpora.GetMetadataLists | compiam/dunya/__init__.py:101-149 | the gathering loop returns the deduplicated lists of the collection's recordings, or fails exactly when the listing or a deduplication fails |
| Dunya.Corpora.GetMetadata | compiam/dunya/__init__.py:80-99 | succeeds iff the gathering succeeds, then stores all seven lists; on failure leaves the object as it was |
| Dunya.SelectWriter | compiam/dunya/__init__.py:301-312 | each writer is chosen iff its substrings occur and no earlier test matched; an unknown subtype is refused; no subtype raises |
| Dunya.SelectWriterExamples | compiam/dunya/__init__.py:301-312 | `pitch` goes to CSV, `tonic` to the scalar writer, `foobar` is refused |
| Dunya.ConcertMp3NameSpec | compiam/dunya/__init__.py:329-332 | the concert mp3 name is the caption with each `/` turned into `-`, then `.mp3`; it contains no `/` |
| Dunya.ConcertMp3NameIsDirName | compiam/dunya/__init__.py:351-355 | a recording's concert mp3 name is the concert directory name followed by `.mp3` |
| Dunya.TrackNameKeepsSlash | compiam/dunya/__init__.py:371 | a `/` in a track's title survives into its file name |
| Dunya.Sanitize | compiam/dunya/__init__.py:332 | `replace("/", "-")` of a name (properties in `Strings.ReplaceChar`) |
| Dunya.Label | compiam/dunya/__init__.py:330-331 | `"%s - %s"` of the artists joined by ` and ` and the title (used by `ConcertMp3Name`, `ConcertDirName`) |
| Dunya.ConcertMp3Name | compiam/dunya/__init__.py:329-332 | the mp3 name of a concert recording (properties in `ConcertMp3NameSpec`, `ConcertMp3NameIsDirName`) |
| Dunya.ConcertDirName | compiam/dunya/__init__.py:352-355 | the directory name of a concert (properties in `ConcertMp3NameIsDirName`, `DownloadConcertNames`) |
| Dunya.TrackReadable | compiam/dunya/__init__.py:366-369 | the reads of one track succeed: `mbid`, and `title`, `disc` and `disctrack` each present and formattable (used by `DownloadConcertNames`) |
| Dunya.Render | compiam/dunya/__init__.py:331 | `"%s"` of a string or an integer value |
| Dunya.ConcertArtists | compiam/dunya/__init__.py:330 | the `name` of each `concert_artists` entry, in order; fails when a read fails |
| Dunya.TrackName | compiam/dunya/__init__.py:371 | `"%s - %s - %s - %s.mp3"` of disc, disc track, artists and title, with no replacement (property in `TrackNameKeepsSlash`) |
| Dunya.ConcertOfRecording | compiam/dunya/__init__.py:328 | the concert answered for the `mbid` of the recording's first `concert` entry; fails when a read or the request fails |
| Dunya.DownloadMp3Name | compiam/dunya/__init__.py:314-338 | a missing output directory is the first error; without `concert` the name is the id followed by `.mp3`; with one, the name is built exactly when the concert, its artists and the title are read, and it is the concert mp3 name of those artists and that title (no `/`, ends in `.mp3`) |
| Dunya.DownloadConcertNames | compiam/dunya/__init__.py:340-373 | a missing output directory is the first error; the call succeeds exactly when the concert, its artists, its title and every track are read; the directory name is the concert's artists and title with `/` turned into `-`, so it contains no `/`; the i-th file name is the `TrackName` of the i-th listed recording's disc, disc track and title with the concert's artists |
| Strings.ReplaceChar | compiam/dunya/__init__.py:332 | same length, with every occurrence of the character replaced and every other character kept |
| Strings.ReplaceCharConcat | compiam/dunya/__init__.py:331-332 | replacement commutes with concatenation |
| Json.Truthy | compiam/dunya/__init__.py:122 | Python truthiness of a decoded value: `None`, `False`, `0`, empty string, list and dict are false |
| PyDict.Put | compiam/dunya/__init__.py:143 | assignment sets the key, keeps the other entries, keeps an existing key's position and appends a new key |
| PyDict.FromPairs | compiam/dunya/__init__.py:143-148 | the dict of a pair sequence has exactly the keys of the pairs, each listed once in its key order (which order is stated by `FirstOccurrenceOrder`) |
| PyDict.Values | compiam/dunya/__init__.py:143-148 | `values()` lists the value of each key in insertion order |
| PyDict.LastWins | compiam/dunya/__init__.py:143-148 | each key maps to the value of the last pair carrying it |
| PyDict.FirstOccurrenceOrder | compiam/dunya/__init__.py:143-148 | the key order is the order of first occurrence in the pairs |
| PyDict.DistinctKeysKept | compiam/dunya/__init__.py:143-148 | with no repeated key, the dict keeps every pair, in order |
| SancaraSearch.FirstMissing | compiam/melody/pattern/sancara_search/__init__.py:118-122 | finds the first key not present, or none when all are present |
| SancaraSearch.ValidateConf | compiam/melody/pattern/sancara_search/__init__.py:107-146 | every error it reports names one of the eight required keys (the order of the checks is in `ValidateConfMissing`, `ValidateConfWrongType`, `ValidateConfAccepts`) |
| SancaraSearch.ValidateConfMissing | compiam/melody/pattern/sancara_search/__init__.py:118-122 | a key is reported missing iff it is absent and every earlier key is present; no type is checked before all keys are present |
| SancaraSearch.ValidateConfWrongType | compiam/melody/pattern/sancara_search/__init__.py:124-146 | a key is reported ill-typed iff all keys are present, it has the wrong type and every earlier key has the right one |
| SancaraSearch.ValidateConfAccepts | compiam/melody/pattern/sancara_search/__init__.py:107-146 | the configuration passes iff every key is present with its type (a bool counts as an int; `dropout` must be a float; `fmin` may be either) |
| SancaraSearch.ValidateConfExamples | compiam/melody/pattern/sancara_search/__init__.py:124-146 | an integer `dropout` is refused, `True` is accepted as `n_bins`, a missing `sr` is reported |
| SancaraSearch.NewCaeWrapper | compiam/melody/pattern/sancara_search/__init__.py:76-83 | construction fails with the validation error iff validation fails; otherwise the object holds the configuration |
| SancaraSearch.CaeWrapper.constructor | compiam/melody/pattern/sancara_search/__init__.py:73-85 | every configuration key becomes an attribute with its value; the model's input size is `n_bins * length_ngram` |
| SancaraSearch.ModelFor | compiam/melody/pattern/sancara_search/__init__.py:161-162 | the model built from a valid configuration: input size `n_bins * length_ngram`, `n_bases` and `dropout` (property in `WindowFitsModel`) |
| SancaraSearch.SampleRate | compiam/melody/pattern/sancara_search/__init__.py:199 | a missing or zero argument falls back to the configured rate; any other is used |
| SancaraSearch.CaeWrapper.GetCqt | compiam/melody/pattern/sancara_search/__init__.py:186-204 | the front end is asked with the configured bins, octave resolution, `fmin`, hop length and the selected rate |
| SancaraSearch.CaeWrapper.Request | compiam/melody/pattern/sancara_search/__init__.py:199-202 | the CQT request with the configured bins, octave resolution, `fmin` and hop length, at the rate `SampleRate` selects (properties in `CaeWrapper.GetCqt`) |
| SancaraSearch.CaeWrapper.ExtractFeatures | compiam/melody/pattern/sancara_search/__init__.py:166-184 | the CQT is always requested at the configured rate, whatever `sr` is passed; the result is that of `to_amp_phase` on it |
| SancaraSearch.PySlice | compiam/melody/pattern/sancara_search/__init__.py:223 | an in-range slice is the subsequence between its bounds |
| SancaraSearch.Flatten | compiam/melody/pattern/sancara_search/__init__.py:223 | `reshape((-1,))` of a matrix (properties in `FlattenLength`, `FlattenAt`) |
| SancaraSearch.WindowCount | compiam/melody/pattern/sancara_search/__init__.py:222 | `len(range(0, T - L))`, that is `max(0, T - L)` (properties in `Ngrams`, `WindowsStack`) |
| SancaraSearch.Window | compiam/melody/pattern/sancara_search/__init__.py:223 | the flattened slice `cqt[i:i + L]` (properties in `WindowsAreRows`, `WindowFitsModel`) |
| SancaraSearch.Ngrams | compiam/melody/pattern/sancara_search/__init__.py:221-225 | `max(0, T - L)` windows, window `i` being the standardised flattening of rows `i` to `i + L - 1` |
| SancaraSearch.Stack | compiam/melody/pattern/sancara_search/__init__.py:227 | stacking fails on no rows and on ragged rows, and otherwise keeps the rows |
| SancaraSearch.AmpPhase | compiam/melody/pattern/sancara_search/__init__.py:221-229 | the network's output on the stacked windows, or the stacking error (properties in `TooFewFramesFails`, `WindowsStack`) |
| SancaraSearch.CaeWrapper.ToAmpPhase | compiam/melody/pattern/sancara_search/__init__.py:206-231 | the loop's windows, stacked and run through the network; no more frames than the window length is an error |
| SancaraSearch.FlattenLength | compiam/melody/pattern/sancara_search/__init__.py:223 | flattening `n` rows of width `w` gives `n * w` values |
| SancaraSearch.FlattenAt | compiam/melody/pattern/sancara_search/__init__.py:223 | flattening is row-major |
| SancaraSearch.WindowsAreRows | compiam/melody/pattern/sancara_search/__init__.py:222-223 | each produced window is `L` whole rows ending before the last frame, so the window starting at `T - L` is never produced |
| SancaraSearch.TooFewFramesFails | compiam/melody/pattern/sancara_search/__init__.py:221-227 | with `T <= L` the extraction is an error, not an empty result |
| SancaraSearch.WindowsStack | compiam/melody/pattern/sancara_search/__init__.py:221-229 | for rectangular frames and `T > L`, `T - L` windows of `L * width` values stack and go to the network |
| SancaraSearch.WindowFitsModel | compiam/melody/pattern/sancara_search/__init__.py:161-162 | with frames `n_bins` wide, every window has exactly the model's input size |
| StrokeClassification.PreTrainedModels | compiam/timbre/stroke_classification/__init__.py:14-16 | the class names of the registry entries, in order; fails iff an entry has none |
| StrokeClassification.ListTools | compiam/timbre/stroke_classification/__init__.py:13-20 | same length and order as the tool list; a tool gets `*` iff some entry has it as its class name, and is unchanged otherwise |
| StrokeClassification.PreTrainedIsClassName | compiam/timbre/stroke_classification/__init__.py:14-18 | having a pre-trained model is membership in the set of class names |
| StrokeClassification.ListToolsDependsOnNames | compiam/timbre/stroke_classification/__init__.py:14-16 | registries with the same set of class names list the tools identically, whatever their order or repetitions |
| StrokeClassification.ListToolsUnmark | compiam/timbre/stroke_classification/__init__.py:17-20 | each listed name starts with its tool, and is one character longer exactly when the tool has a pre-trained model |

## Left out

- HTTP and authentication are not modelled: `_dunya_query_json`, `set_token`, `get_mp3` and `_file_for_document`. Only the answers of `_dunya_query_json` are parameters (maps, where a missing key is a failed request). `get_mp3` and `_file_for_document` have no counterpart at all.
- The five `get_recording` calls for one recording see the same answer, because they read one map.
- Disk I/O is not modelled: `os.path.exists` (a boolean parameter), `os.makedirs` and its `EEXIST` handling, the file writes, and the three annotation writers. The writers are an enumerated choice.
- DownloadMp3Name: returns the file name only. The download by `get_mp3` and the write at lines 335-337, either of which can raise after the name is built, are not modelled.
- DownloadConcertNames: returns the names only. The directory creation at lines 357-363 and the per-track download and write at lines 370-373, which can raise part-way through the tracks, are not modelled.
- SelectWriter: models only the dispatch on the subtype. The `_file_for_document` fetch at line 298, which runs first and can raise, is not modelled.
- Corpora.constructor: starts the seven lists empty. In the source `__init__` creates no `*_list` attribute, so reading one before a successful `get_metadata` raises `AttributeError` rather than giving an empty list.
- The `tqdm` progress bar and the logger are not modelled.
- `get_artist`, `get_work`, `get_raga`, `get_tala` and `get_instrument` are not modelled: each only forwards a request. (`get_recording` and `get_concert` are the `getRecording` and `getConcert` maps; `get_collection` and `get_metadata` are modelled.)
- `list_concerts`, `list_works`, `list_ragas`, `list_talas` and `list_instruments` are not modelled: each only returns one of the stored lists.
- `list_available_types` is not modelled: it forwards a request for the recording's document and maps each of its derived-file types to the list of that type's subtype keys.
- `get_annotation` is not modelled: it only forwards a request.
- `load_conf` and the ConfigObj parsing are not modelled. The parsed configuration is an input map.
- `validate_conf` messages: only the offending key is kept.
- Torch is not modelled:
  - the optional imports;
  - `load_state_dict` and the weights;
  - CUDA detection (a boolean parameter);
  - `model.cuda()`, `model.eval()` and `cuda_variable`;
  - the forward pass, which is a function parameter.
- `to_cqt_repr`, its `transpose` and `standardize` are function parameters. Frames are rows of reals, and no floating-point behaviour is modelled.
- `get_tool_list`, `sys.modules` and `models_dict` are not modelled. The tool list and the registry values are inputs.
- Iterating a JSON value that is not a list counts as a failed read. Python would iterate a string or a dict's keys.
- JSON numbers are integers; floating-point values are not modelled.
- Render: only string and integer titles, discs and track numbers are formatted; any other value counts as a failed download.
- CaeWrapper.constructor: does not model a configuration key that would overwrite a method or attribute of the object through `setattr`; the attributes are a separate map.
