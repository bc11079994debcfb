# JobMaster wizard, prompts and reply parser in Dafny

JobMaster is a Streamlit wizard. It gathers the parameters of a data workflow over five
steps, asks a hosted language model to write the workflow's YAML and SQL files, splits the
model's reply back into files and shows them as a folder tree. This project models that core
with the widgets and the network taken away.

- `text.dfy` (module `Text`): the Python `str` operations the core uses, over `seq<char>`:
  `isspace`, `strip`, `startswith`/`endswith`, `split`, `splitlines`, `join`, `rfind`,
  ASCII `lower` and `str(int)`.
- `wrappers.dfy`: `Option` and `Result`.
- `config.dfy` (module `Config`): the constant lists of `config.py` the wizard chooses from.
- `prompts.dfy` (modules `Prompts`, `SystemPrompts`) covers `construire_user_prompt` and
  `construire_system_prompt`.
  - The context dictionary is a record. Its required keys are fields, and its optional
    scalar keys form a `map<Key, Value>`.
  - The user prompt is the list of its lines joined by newlines. `BuildUserPrompt` builds it
    with appends, as the source does.
- `request_texts.dfy` (modules `QuestionPrompts`, `DemoPrompts`): the fixed system prompts
  of the questions request and the demo request.
- `reply_parser.dfy` (module `ReplyParser`): `parser_fichiers`.
  - The regular expression `---\s*FICHIER:\s*(.+?)\s*---\s*\n(.*?)---\s*FIN FICHIER\s*---`
    with `re.DOTALL` is written as an explicit scanner.
  - The scanner follows Python's backtracking order: greedy `\s*`, lazy groups, leftmost
    match, and `findall` resuming after each match.
- `round_trip.dfy` (module `ReplyRoundTrip`): the delimiter protocol that the system prompt
  asks for, proved to parse back to its files.
- `generator.dfy` (module `Generator`) covers the three requests: `generer_workflow`,
  `poser_questions_ia` and `generer_contexte_ia`.
  - The chat service is a `ChatClient` object. It records the requests it is sent and
    answers from a scripted list of replies, each possibly a failure.
  - The module also models the JSON extraction of the demo and `detecter_langage`.
- `file_tree.dfy` (module `FileTree`): `_construire_arbre`, `_compter_fichiers` and
  `_icone_dossier`.
- `session.dfy` (module `Wizard`): the session state and every button and form of the five
  steps.
  - The session is a `Session` object whose eight fields are the eight session keys, each
    `None` while absent.
  - Every handler method states its new state as a transition function of the old state and
    of the widget values.
  - The lemmas state what the wizard promises about those functions.

## Model

| member | source | states |
|---|---|---|
| Text.Split | ui_composants.py:226 | `s.split(c)` gives at least one part, no part holds `c`, and joining the parts with `c` gives `s` back |
| Text.SplitLines | ui_composants.py:225 | `splitlines` gives lines free of line breaks, and no lines exactly for the empty text |
| Text.SplitLinesOfJoin | ui_composants.py:225 | lines free of breaks, the last one non-empty, joined by newlines: `splitlines` gives exactly those lines back, in order |
| Text.StripSpec | generator.py:159-160 | `strip` leaves no whitespace at either end, and leaves nothing exactly when the text was all whitespace |
| Text.StripIgnoresPadding | generator.py:159-160 | whitespace added around a text does not change what it strips to |
| Text.LastIndexOf | generator.py:145 | `rfind` gives an occurrence with none after it, or none when there is no occurrence |
| Text.IndexOf | generator.py:144 | the first occurrence of a character: it is there, and not before |
| Text.ToLower | ui_composants.py:495 | `lower` maps every character, position by position, through the ASCII case map |
| Prompts.Shown | prompts.py:91-151 | the keys written are exactly the listed keys present with a truthy value, in order |
| Prompts.OptLinesShown | prompts.py:91-151 | the chain of conditional appends gives one labelled line per written key, in the fixed order |
| Prompts.FalsyOptLines | prompts.py:91-151 | an optional key with a falsy value (empty string, 0, False) writes the same lines as an absent key |
| Prompts.FalsyIsAbsent | prompts.py:91-151 | the whole user prompt with a falsy optional value equals the prompt with that key absent |
| Prompts.LineCount | prompts.py:82-158 | the prompt has 5 header lines, one line per written key, the column section and the closing line |
| Prompts.ShownKeyHasLine | prompts.py:91-151 | a present key with a truthy value has its labelled line in the prompt |
| Prompts.UserPromptStart | prompts.py:79-88 | the prompt opens with the intro, then the Domaine, Dossiers, Plateforme and Description lines in that order, with Dossiers as the join or the fallback phrase |
| Prompts.UserPromptEnd | prompts.py:153-158 | the prompt ends with a newline and the closing generation instruction |
| Prompts.ColumnNotNull | prompts.py:124-125 | a column row ends with ` NOT NULL)` exactly when `nullable` is False (a missing `nullable` counts as True) or the type itself ends so |
| Prompts.AppendColumnRows | prompts.py:123-125 | the loop over the columns appends exactly one row per column, in order |
| Prompts.BuildUserPrompt | prompts.py:76-158 | the prompt built by appends to a list equals the specified line list joined by newlines |
| SystemPrompts.SystemPromptEndsWithDoc | prompts.py:72-73 | the system prompt ends with the documentation marker line and then the documentation, verbatim |
| SystemPrompts.SystemPromptInjective | prompts.py:6-73 | two system prompts are equal only for equal documentation texts |
| QuestionPrompts.QuestionsPromptEndsWithDoc | generator.py:70-82 | the questions system prompt ends with its marker line and the documentation, verbatim |
| DemoPrompts.DemoPromptEndsWithDoc | generator.py:115-132 | the demo system prompt ends with its marker line and the documentation, verbatim |
| ReplyParser.CloseEnd | generator.py:155 | a close marker found at `k` starts with `---` there and ends inside the reply |
| ReplyParser.MatchAt | generator.py:155 | a match starting at `i` ends after `i`, inside the reply |
| ReplyParser.ParseFiles | generator.py:152-163 | the loop over the matches appends one file per match, in order: the specified parse |
| ReplyParser.FilesOf | generator.py:158-161 | one file per match, the i-th file made from the i-th match |
| ReplyParser.FileOfShape | generator.py:159-160 | a file made from a match has a trimmed path and a content that is a trimmed text followed by one newline |
| ReplyParser.ParsedFileShape | generator.py:152-163 | every parsed file has a trimmed path and a content that is a trimmed text followed by exactly one newline |
| ReplyParser.BlankBodyGivesNewline | generator.py:160 | a block body that is only whitespace gives the content `"\n"` |
| ReplyParser.MatchAtMarkers | generator.py:155 | a match begins with an open marker and holds a close marker |
| ReplyParser.NoCloseMarkerNoFiles | generator.py:154-163 | a reply with no close marker anywhere yields no file, and the parse never fails |
| ReplyParser.NoOpenMarkerNoFiles | generator.py:154-163 | a reply with no open marker anywhere yields no file |
| ReplyRoundTrip.MatchBlock | generator.py:155 | a block written in the protocol, with a non-blank path free of `---` and a content free of the close word, matches where it starts, the match ends where the block ends, and its file is the block's path stripped with the block's content stripped and ended by one newline |
| ReplyRoundTrip.FindAllRendered | generator.py:156 | `findall` over blocks written one per line finds one match per block, in order |
| ReplyRoundTrip.ParseRender | generator.py:152-163 | round trip: parsing a rendered list of files gives back the same files in order, with each path stripped and each content stripped and ended by one newline; duplicate paths are all kept. Its condition on contents (no `FIN FICHIER` anywhere) is stronger than the parser needs, which only stops at a whole close marker `---\s*FIN FICHIER\s*---` |
| Generator.ChatClient.Complete | generator.py:32-46 | one request is recorded as sent, and the answer is the next scripted reply, which is used up |
| Generator.UserPromptOf | generator.py:56 | the user prompt is built exactly when the required keys are present (`KeyError` otherwise), and it is then the specified prompt |
| Generator.GenerateWorkflow | generator.py:49-63 | an empty documentation raises before anything is sent; a context without the required keys raises before anything is sent; otherwise exactly the workflow request is sent and its reply returned |
| Generator.AskQuestions | generator.py:66-91 | without the required keys nothing is sent; otherwise the questions request, with the user prompt after its introduction, is sent and its reply returned |
| Generator.DemoContext | generator.py:94-146 | the demo request sent names the drawn domain of the 20 listed and the drawn platform of BQ and TD; the result is the JSON text extracted from the reply |
| Generator.DemoDirectiveDeterminesDraw | generator.py:136 | two demo messages are equal exactly when they impose the same domain and the same platform; it needs the domains to hold no newline, and the 20 drawn domains are one-line names |
| Generator.JsonText | generator.py:142-146 | any extracted JSON text is trimmed |
| Generator.UnfencedPassesThrough | generator.py:142-143 | a reply that does not open with three backticks once stripped is passed on stripped and otherwise unchanged |
| Generator.FencedSingleLineFails | generator.py:143-144 | a fenced reply with no newline raises, because the split has no second part |
| Generator.FencedShape | generator.py:143-144 | a fenced block is trimmed, opens with the fence, and its first newline closes the opening line |
| Generator.LastFenceAtEnd | generator.py:145 | in a text that ends with a fence, the last fence is that final one |
| Generator.JsonTextOfFenced | generator.py:142-146 | round trip: a trimmed JSON text wrapped in a fenced block, with any tag on the opening line, is extracted back exactly |
| Generator.YamlNotSql | generator.py:178-181 | no path ends with both a YAML and an SQL suffix |
| Generator.DetectLanguageSpec | generator.py:176-182 | the tag is `yaml` exactly for `.yml`/`.yaml`, `sql` exactly for `.gql`/`.dql`/`.sql`, and empty exactly otherwise |
| Generator.DetectLanguageOfExtension | generator.py:176-182 | any stem followed by a listed extension gets that extension's tag |
| FileTree.Slashes | ui_composants.py:486 | `replace("\\", "/")` changes every backslash to a slash and keeps every other character |
| FileTree.StripChar | ui_composants.py:486 | `strip("/")`: the path is a run of slashes, then the result, then a run of slashes, and the result neither starts nor ends with a slash |
| FileTree.Segments | ui_composants.py:486 | the split of a path has at least one segment; the segments, joined by slashes, give the path with its backslashes made slashes and its outer slashes stripped, and no segment holds a slash or a backslash |
| FileTree.FindDir | ui_composants.py:489 | the sub-folder found by name is the first one with that name, or there is none with it |
| FileTree.BuildTree | ui_composants.py:478-491 | the loop over the files inserts them one after the other, and the tree holds as many files as the input |
| FileTree.CountFiles | ui_composants.py:544-550 | the recursive count is the specified count of the folder and all folders below it |
| FileTree.FindDirUpdate | ui_composants.py:489 | updating a sub-folder in place under its name changes no lookup by name |
| FileTree.FindDirAppend | ui_composants.py:489 | `setdefault` of a new name appends a folder found under that name, and changes no other lookup |
| FileTree.CountAllUpdate | ui_composants.py:547-549 | replacing one sub-folder changes the count by the difference of the two counts |
| FileTree.InsertCount | ui_composants.py:488-490 | inserting a file adds exactly one to the count |
| FileTree.InsertFilesAt | ui_composants.py:488-490 | an insertion appends the file to the files of its own folder and to no other folder |
| FileTree.BuiltCount | ui_composants.py:544-550 | the count of the built tree is the number of input files |
| FileTree.BuiltFilesAt | ui_composants.py:478-491 | every folder of the built tree holds exactly the files whose folder path names it, in input order |
| FileTree.NoSlashAtRoot | ui_composants.py:486-490 | a path with no slash or backslash lands at the root |
| FileTree.StripCharUnchanged | ui_composants.py:486 | a path with no outer slash strips to itself |
| FileTree.DirsOfJoin | ui_composants.py:486-490 | a path `d1/.../dk/name` with non-empty segments free of slashes and backslashes is filed under exactly the folders `d1`, ..., `dk`, in order |
| FileTree.FolderIconIsFirstMatch | ui_composants.py:494-508 | the chain of tests is a first-match search of the keyword table, in the source's order |
| FileTree.FolderIconIgnoresCase | ui_composants.py:494-508 | a folder name and its lower-cased form get the same icon |
| Wizard.Initialized | ui_composants.py:25-39 | after `init_session` every key is present |
| Wizard.TypesFor | ui_composants.py:199-200 | the column types offered are never empty: BQ's types when the platform is BQ or absent, TD's types otherwise |
| Wizard.StripEach | ui_composants.py:226 | each part stripped, in order |
| Wizard.Fields | ui_composants.py:226-227 | a pasted line has at least one field, so `parts[0]` always exists |
| Wizard.BulkColumnsAppend | ui_composants.py:225-230 | one more pasted line appends that line's column, if it names one, to the columns of the lines before |
| Wizard.AppendBulk | ui_composants.py:225-230 | the import loop keeps the existing columns and appends the columns of the pasted lines, in order |
| Wizard.Session.constructor | ui_composants.py:25-39 | a new session holds no key |
| Wizard.Session.Init | ui_composants.py:25-39 | every absent key gets its default and present keys are kept |
| Wizard.Session.Restart | ui_composants.py:87-92 | every one of the eight keys is deleted |
| Wizard.Session.Demo | ui_composants.py:108-126 | without a key nothing is sent and nothing changes; otherwise a decoded context replaces the context, its columns (or none) become the session's, full-AI mode is set and step 5 opens; any failure changes nothing; with a key, exactly the demo request naming the drawn domain and platform, with the model and documentation given, is sent once and one scripted reply is used up |
| Wizard.Session.SelectFolders | ui_composants.py:140-146 | the checkbox loop gives the ticked folders in the order they are offered |
| Wizard.Session.Step1Form | ui_composants.py:130-175 | the form writes the specified step-1 context and changes nothing else of the session |
| Wizard.Session.Step1Submit | ui_composants.py:180-187 | the error shown is the specified one, and step 2 opens exactly when there is none |
| Wizard.Session.AddColumn | ui_composants.py:208-211 | one unnamed, nullable column of the platform's first type is appended, and nothing else changes |
| Wizard.Session.BulkImport | ui_composants.py:224-233 | the pasted lines' columns are appended to the existing ones, and nothing else changes |
| Wizard.Session.EditColumn | ui_composants.py:244-260 | row `i` takes the name, type and nullable flag of its widgets; no other row or key changes |
| Wizard.Session.DeleteColumns | ui_composants.py:262-268 | the marked rows are dropped, the others kept in order, and nothing else changes |
| Wizard.Session.Step2Submit | ui_composants.py:282-288 | the session takes the step-2 Next transition |
| Wizard.Session.Step3Form | ui_composants.py:299-391 | only the context's optional keys change, as the step-3 writes say |
| Wizard.Session.Step3Submit | ui_composants.py:400-403 | step 4 opens and nothing else changes |
| Wizard.Session.FetchQuestions | ui_composants.py:417-432 | the page goes on exactly when there were questions or new ones came back; questions are fetched only when there were none and a key is set, and the service is not called otherwise; when the context has the required keys, exactly the questions request built from the session's own context, with the model and documentation given, is sent once and one scripted reply is used up |
| Wizard.Session.SetAnswers | ui_composants.py:440-446 | only the answers change |
| Wizard.Session.Reask | ui_composants.py:456-458 | only the questions are cleared |
| Wizard.Session.Step4Submit | ui_composants.py:459-472 | the session takes the step-4 Generate transition |
| Wizard.Session.FetchWorkflow | ui_composants.py:585-600 | the page goes on to its files and buttons exactly when there were files or the request succeeded, and stops otherwise (no key, or a failed call); files are generated only when there are none and a key is set, and the service is not called otherwise; when the documentation is non-empty and the context has the required keys, exactly the workflow request built from the session's own context, with the model and documentation given, is sent once and one scripted reply is used up; the raw reply and its parsed files are kept |
| Wizard.Session.Regenerate | ui_composants.py:633-637 | only the files and the raw reply are cleared; the button is drawn only when FetchWorkflow says the page goes on |
| Wizard.Session.Back | ui_composants.py:629-632 | the back button of step `from` opens step `from - 1` and changes nothing else (the same button is at lines 277-280, 396-399 and 451-454 for steps 2 to 4); on steps 4 and 5 the button is drawn only when FetchQuestions or FetchWorkflow says the page goes on |
| Wizard.InitKeepsReady | ui_composants.py:25-39 | `init_session` never overwrites a present key, and running it twice is running it once |
| Wizard.RestartStartsOver | ui_composants.py:87-92 | after a restart, `init_session` (lines 25-39) restores exactly the defaults, at step 1 |
| Wizard.TransitionsKeepValid | ui_composants.py:102-637 | every step transition keeps every key present and the step between 1 and 5 |
| Wizard.SelectedMembers | ui_composants.py:140-146 | a folder is selected exactly when its box is ticked |
| Wizard.SelectedOfThree | ui_composants.py:142-145 | the selection among three items, written out in order |
| Wizard.FoldersSelected | ui_composants.py:140-146 | the folders kept are the ticked ones among Import, Alimentation and Export, in that order, without duplicates |
| Wizard.Step1FormThenNext | ui_composants.py:180-187 | Next is accepted exactly when the domain and the description are non-empty and a folder is ticked; the folder error appears exactly when only the folders are missing |
| Wizard.Step1Writes | ui_composants.py:130-175 | the form makes the user prompt buildable, writes source and format only with Import, the destination only with Export, and leaves every other optional key as it was |
| Wizard.BulkColumnsShape | ui_composants.py:225-230 | every imported column has a non-empty name, a type offered by the platform and nullable set; there are at most as many as lines |
| Text.SplitAtFirst | ui_composants.py:226 | a line splits at its first comma into the part before it and the split of the rest |
| Text.SplitOfJoin | ui_composants.py:486 | parts free of `c`, joined by `c`, split back into exactly those parts, in order |
| Wizard.BulkLineOfPair | ui_composants.py:226-230 | the line `nom,type` gives the column `nom` with that type when the platform offers it, and the platform's first type otherwise |
| Wizard.BulkLineOfName | ui_composants.py:226-230 | a line with a name only gives that column with the platform's first type |
| Wizard.CommaTypeFallsBack | ui_composants.py:226-228 | a type holding a comma is cut at it, so its line gets the platform's first type whenever the part before the comma is not offered |
| Wizard.DecimalNotPastable | ui_composants.py:226-228 | Teradata offers `DECIMAL(15,2)`, yet a pasted `nom,DECIMAL(15,2)` line gets `VARCHAR(255)` |
| Wizard.BulkColumnsOfPairs | ui_composants.py:225-230 | pasted `nom,type` lines give one column each, the i-th column from the i-th line |
| Wizard.BulkImportOfPairs | ui_composants.py:224-230 | a pasted text of `n` trimmed `nom,type` lines joined by newlines imports exactly `n` columns, the i-th named by the i-th line and typed by it when the platform offers that type |
| Wizard.UnmarkedNone | ui_composants.py:266-267 | deleting no row keeps every column |
| Wizard.UnmarkedOne | ui_composants.py:266-267 | deleting row `i` drops that column and keeps the others in order |
| Wizard.NamedAppend | ui_composants.py:284 | filtering a concatenation filters each part |
| Wizard.NamedMembers | ui_composants.py:284 | a column is kept exactly when it was there and its name is non-blank once stripped |
| Wizard.NamedIdempotent | ui_composants.py:284 | filtering twice is filtering once |
| Wizard.Step2NextNamed | ui_composants.py:282-288 | after Next on step 2 every column has a non-blank name, the session and the context hold the same columns, and pressing Next again changes nothing |
| Wizard.Step3Writes | ui_composants.py:299-391 | step 3 writes the keys of the ticked folders' sections (the URIs only for cloud storage, the primary key only for UPSERT and UPDATE), the purges and the instructions, and leaves every other key as it was |
| Wizard.PurgesWrites | ui_composants.py:376-389 | the purges and the instructions are always written, and nothing else there |
| Wizard.ExtendsTrans | ui_composants.py:306-389 | the sections' writes compose |
| Wizard.ImportWritesKeys | ui_composants.py:306-339 | the Import section writes exactly its keys, the source URI only for a cloud-storage source, and keeps source and destination |
| Wizard.AlimentationWritesKeys | ui_composants.py:341-355 | the Alimentation section writes exactly its keys, the primary key only for UPSERT and UPDATE, and keeps the destination |
| Wizard.ExportWritesKeys | ui_composants.py:357-372 | the Export section writes exactly its keys, the destination URI only for a cloud-storage destination |
| Wizard.AnswersAppended | ui_composants.py:459-472 | blank answers only open step 5; other answers end the instructions after the heading, behind what was there, and nothing else of the context changes; instructions that are not text make the concatenation raise and nothing changes |
| Wizard.QuestionsAskedOnce | ui_composants.py:419-458 | once there are questions, later reruns ask nothing; after re-ask the next answer becomes the questions |
| Wizard.GeneratedUntilFiles | ui_composants.py:585-600 | a generation keeps the reply and its parsed files; a reply with files is kept on later reruns, one without files is asked again |
| Wizard.GeneratedFromBlocks | ui_composants.py:585-600 | a reply made of well-formed file blocks gives step 5 exactly those files, normalised as the parser writes them |
| Wizard.DemoOpensGeneration | ui_composants.py:118-123 | a decoded demo context opens step 5 in full-AI mode, with the session's columns equal to the context's |
| Wizard.DemoOfFencedReply | ui_composants.py:118-121 | a fenced JSON reply whose body decodes gives the demo that body's context |

## Left out

- Streamlit rendering is not modelled: widgets, expanders, columns, spinners, messages,
  download buttons, the sidebar progress list, `afficher_recap`, `_afficher_noeud` and
  `_afficher_arborescence`. A widget's value is a parameter of the handler that uses it.
- The `_bulk_mode` key, which only shows or hides the bulk text area, is not modelled.
- The Groq network call (`appeler_groq`) is the `ChatClient` object: a scripted list of
  replies. Any exception of the call is one failed reply.
- The temperatures are kept in tenths (0.3 is 3), since the model has no floating point.
- `charger_documentation` (file I/O and caching) is not modelled: the documentation text is
  a parameter.
- `creer_zip` is not modelled: it is a thin wrapper over `zipfile` with deflate compression,
  and the model does not describe archive bytes.
- `json.loads` is a `JsonDecoder` value: a table of the texts it accepts, each with the
  context it decodes to.
  - The model treats a JSON value that is not an object as a decoding error, so nothing
    changes.
  - In the source, such a value is stored as the context before `.get` raises.
- `random.choice` is an index parameter of `Demo` and `DemoContext`.
- `Text.ToLower` only folds ASCII letters. The keywords of `_icone_dossier` are ASCII, but
  a non-ASCII upper-case letter elsewhere in a folder name is not lowered as Python would.
- Context values are text, integers or booleans (`Prompts.Value`). JSON lists or nested
  objects under an optional key, as the demo could produce, are not modelled.
- The clamping of the purge durations to 0..120 by `st.number_input` is widget behaviour.
  The model takes any integer.
- FileTree.BuildTree requires that no folder segment is named `_fichiers`. In the source,
  such a segment would share the key under which a folder keeps its files.
- Wizard.Session.EditColumn models one row of the editor per call. The source's loop writes
  every row on every rerun, which is one call per row.
- The `isinstance(v, dict)` test of `_compter_fichiers` is implicit: in the tree datatype,
  every entry except the file list is a folder.
- app.py (page set-up and the dispatch on the step) and `MODELES_GROQ` are not modelled.
  The model name is a parameter.
- Wizard.Session.Demo, Wizard.Session.FetchQuestions and Wizard.Session.FetchWorkflow do
  not model the error message shown.
- The bulk import cannot select a type that holds a comma, such as Teradata's `DECIMAL(15,2)`:
  the line is split on every comma, as in the source, and Wizard.DecimalNotPastable records
  it. Wizard.Pastable, the condition of Wizard.BulkImportOfPairs, therefore asks for a type
  without a comma.
- Wizard.Session.Back and Wizard.Session.Regenerate do not themselves check that the page
  went on. On steps 4 and 5 the page draws them only after FetchQuestions or FetchWorkflow
  returned true; a caller of the model keeps to that.
