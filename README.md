# mimic4fhir core, modelled in Dafny

mimic4fhir converts the MIMIC-IV clinical database into FHIR R4 resources,
either as plain FHIR R4 or following the German core data set (KDS) profiles.
For each patient it reads the admissions with their diagnoses, procedures,
prescriptions, transfers, chart events and lab events. It turns every row into
a FHIR resource and packs the resources of one admission into transaction
bundles. Identity resources are conditional creates on their identifiers. A
bundle is flushed to a message queue once it holds more than 15000 resources,
and the basic part of the admission is replayed into the next bundle. Every
flush is labelled `<patient>_<admission>_<bundleNumber>`. A consumer takes
the messages off the queue and prints them, writes each to its own file or
pushes it to a FHIR server. A message whose bundle is `END` stops it.

The model has one Dafny module per source file:

- `BundleControl` is a class over the bundle under construction. It keeps the
  invariant that the resource counter equals the number of entries.
- `Transformer.Converter` is the per-patient driver of
  `concur/FHIRTransformer.java`, which `Mimic4Fhir.java` repeats. It is a class
  whose methods change the bundle, the three "already in this bundle" memory
  maps and the list of sent messages. A ghost log of flushes proves that
  labels are unique and that every admission is sent.
- `Mimic4Fhir` holds the sequential run (`start`, which ends with the END
  message) and the threaded run (`startWithThread`, no END message), taken
  one task after the other.
- `Receiver` and `FHIRComm` model the consumer: END handling, dispatch by
  output mode, and the rule that gives each bundle its file name.
- `ICD9MapperLookup`, `ProcedureSNOMEDLookup`, `RxNormLookup` and
  `StationManager` are the memoising lookups. Each is a class with its cache
  maps, and the remote service is a function passed in as a parameter.
  `ImagingManager` caches on the study and report records themselves.
- `AdmissionManager`, `PatientManager`, `DiagnoseManager`, `ProcedureManager`,
  `PrescriptionManager`, `CharteventManager`, `LabeventManager`, `MChartevent`,
  `MCaregiver`, `MWard` and `MNoteevent` are the code tables and resource
  builders. Each is written as functions over datatypes, or as classes where
  the source sets fields.
- `JavaSwitch` gives a Java string `switch` its meaning, including
  fall-through. Several tables rely on fall-through, some of them by accident.
- `StringManipulator` is the ICD code normal form. `ConnectDB` folds the
  database rows into patients, admissions and transfers. `TimeMeasurements`
  is the timing accumulator.
- `Dedup` states once what the three memory-map loops of the converter do.

Java `null` is `None` wherever the code tests for it, and an exception that
leaves a method is a `None` result. Random UUIDs, remote lookups and
database rows are inputs.

## Model

| member | source | states |
|---|---|---|
| BundleControl.EntryRequests | src/main/java/de/uzl/itcr/mimic4fhir/work/BundleControl.java:89-133 | every entry is a POST to the resource's type; only the UUID variants set fullUrl to the resource id, and only the conditional one sets ifNoneExist to the condition |
| BundleControl.Controller.constructor | src/main/java/de/uzl/itcr/mimic4fhir/work/BundleControl.java:37-42 | a new controller holds an empty transaction bundle, zero resources and bundle number 1 |
| BundleControl.Controller.GetNumberOfResources | src/main/java/de/uzl/itcr/mimic4fhir/work/BundleControl.java:48-50 | the resource count equals the number of entries in the current bundle |
| BundleControl.Controller.GetInternalBundleNumber | src/main/java/de/uzl/itcr/mimic4fhir/work/BundleControl.java:56-58 | returns the internal bundle number, which is always at least 1 |
| BundleControl.Controller.GetTransactionBundle | src/main/java/de/uzl/itcr/mimic4fhir/work/BundleControl.java:81-83 | returns the current bundle, a transaction with as many entries as the resource count |
| BundleControl.Controller.ResetInternalBundleNumber | src/main/java/de/uzl/itcr/mimic4fhir/work/BundleControl.java:63-65 | sets the bundle number back to 1 and leaves bundle and count as they were |
| BundleControl.Controller.ResetBundle | src/main/java/de/uzl/itcr/mimic4fhir/work/BundleControl.java:70-75 | starts an empty transaction bundle, zeroes the count and increments the bundle number |
| BundleControl.Controller.AddResourceToBundle | src/main/java/de/uzl/itcr/mimic4fhir/work/BundleControl.java:89-99 | appends exactly one plain POST entry for the resource; the count follows the entries |
| BundleControl.Controller.AddUuidResourceToBundle | src/main/java/de/uzl/itcr/mimic4fhir/work/BundleControl.java:105-115 | appends exactly one POST entry whose fullUrl is the resource id |
| BundleControl.Controller.AddUuidResourceWithConditionToBundle | src/main/java/de/uzl/itcr/mimic4fhir/work/BundleControl.java:123-133 | appends exactly one conditional-create entry carrying the given ifNoneExist condition |
| StringManipulator.ConformIcdString | src/main/java/de/uzl/itcr/mimic4fhir/tools/StringManipulator.java:21-32 | the key contains no whitespace; a code of at most three characters (after deleting whitespace) is kept as it is; a longer one gains exactly one character, a dot at index 3 |
| StringManipulator.DeleteDotRoundTrip | src/main/java/de/uzl/itcr/mimic4fhir/tools/StringManipulator.java:24-28 | deleting the inserted dot from a long key gives back the code without whitespace |
| StringManipulator.SpacesIrrelevant | src/main/java/de/uzl/itcr/mimic4fhir/tools/StringManipulator.java:23 | deleting whitespace before the call changes nothing |
| StringManipulator.ConformInjective | src/main/java/de/uzl/itcr/mimic4fhir/tools/StringManipulator.java:21-32 | two codes get the same key if and only if they agree once whitespace is deleted |
| StringManipulator.NotIdempotent | src/main/java/de/uzl/itcr/mimic4fhir/tools/StringManipulator.java:24-28 | applying the function to its own result on a long code adds a second dot, so it is not idempotent |
| StringManipulator.ShortIdempotent | src/main/java/de/uzl/itcr/mimic4fhir/tools/StringManipulator.java:29-31 | on codes of at most three characters the function is idempotent |
| StringManipulator.DottedCodeGetsSecondDot | src/main/java/de/uzl/itcr/mimic4fhir/tools/StringManipulator.java:24-27 | an already dotted code "250.1" becomes "250..1" |
| Text.Trim | src/main/java/de/uzl/itcr/mimic4fhir/model/manager/StationManager.java:65-66 | Java's `String.trim`: the result is no longer than the input and neither starts nor ends with a character up to U+0020; `TrimExact` states that nothing else is cut |
| Text.TrimExact | src/main/java/de/uzl/itcr/mimic4fhir/model/manager/StationManager.java:65-66 | `trim` cuts the input only at its two ends and cuts only characters up to U+0020 there; with the ends of `Trim`'s result this fixes the result |
| Text.JavaSplit | src/main/java/de/uzl/itcr/mimic4fhir/model/manager/PrescriptionManager.java:441 | Java's `split` on one separator: a string without the separator is its own single piece, and no piece contains the separator; `JavaSplitJoins` ties the pieces back to the input |
| Text.JavaSplitJoins | src/main/java/de/uzl/itcr/mimic4fhir/model/manager/PrescriptionManager.java:441 | `split` loses only the trailing separators: the pieces joined with the separator are the input up to its trailing separators, no pieces means the input is all separators, and with a separator present the last piece is not empty |
| FHIRComm.BundleFilePath | src/main/java/de/uzl/itcr/mimic4fhir/work/FHIRComm.java:96-101 | the path starts with the configured directory followed by "bundle" and ends in ".xml" |
| FHIRComm.PathRoundTrip | src/main/java/de/uzl/itcr/mimic4fhir/work/FHIRComm.java:97-98 | for every label other than "0", the label can be read back from the file path |
| FHIRComm.PathsDistinct | src/main/java/de/uzl/itcr/mimic4fhir/work/FHIRComm.java:97-98 | distinct labels other than "0" are written to distinct files |
| FHIRComm.ZeroSharesFileWithEmpty | src/main/java/de/uzl/itcr/mimic4fhir/work/FHIRComm.java:97-101 | label "0" and the empty label both write "bundle.xml" |
| TimeMeasurements.FirstFieldOf | src/main/java/de/uzl/itcr/mimic4fhir/concur/TimeMeasurements.java:39 | the first comma-separated field of a text is the part before its first comma, when that part has no comma |
| TimeMeasurements.FormatRow | src/main/java/de/uzl/itcr/mimic4fhir/concur/TimeMeasurements.java:39 | the "%d,%d,%s,%d,%d" text of a row; for a non-negative row id its first CSV field is that id |
| TimeMeasurements.Timings.constructor | src/main/java/de/uzl/itcr/mimic4fhir/concur/TimeMeasurements.java:34-36 | a new log is empty and valid |
| TimeMeasurements.Timings.AddTiming | src/main/java/de/uzl/itcr/mimic4fhir/concur/TimeMeasurements.java:38-40 | appends exactly one row; its id is the previous count plus 1, its job column is jobNumber + 1, and it is stored formatted |
| TimeMeasurements.Registry.constructor | src/main/java/de/uzl/itcr/mimic4fhir/concur/TimeMeasurements.java:28 | no instance exists before the first request |
| TimeMeasurements.Registry.GetInstance | src/main/java/de/uzl/itcr/mimic4fhir/concur/TimeMeasurements.java:57-62 | the first call creates an empty log; every later call returns that same object |
| TimeMeasurements.RowTextsDistinct | src/main/java/de/uzl/itcr/mimic4fhir/concur/TimeMeasurements.java:38-40 | distinct rows of the log have distinct texts, because their ids differ |
| Receiver.Perform | src/main/java/de/uzl/itcr/mimic4fhir/queue/Receiver.java:143-160 | one data message under one fault: an unparsable bundle produces nothing; otherwise it is printed to the console, written to its numbered file unless the write fails, both, or sent to the server unless the push fails, according to the output mode, and nothing else is produced |
| Receiver.Run | src/main/java/de/uzl/itcr/mimic4fhir/queue/Receiver.java:101-132 | what consuming a queue produces; nothing already printed, sent or written is ever lost |
| Receiver.Consumer.constructor | src/main/java/de/uzl/itcr/mimic4fhir/queue/Receiver.java:95-99 | a new consumer is registered and open, with the given output mode and directory, and has produced nothing |
| Receiver.Consumer.PerformAction | src/main/java/de/uzl/itcr/mimic4fhir/queue/Receiver.java:143-160 | the outputs after the call are those of `Perform` on the outputs before it; an exception leaves it exactly when the bundle does not parse or a push fails |
| Receiver.Consumer.HandleDelivery | src/main/java/de/uzl/itcr/mimic4fhir/queue/Receiver.java:101-132 | an "END" message closes the consumer and dispatches nothing; any other message is dispatched once, an exception is caught and logged, and the consumer stays open |
| Receiver.Deliver | src/main/java/de/uzl/itcr/mimic4fhir/queue/Receiver.java:95-141 | consuming a queue produces exactly the outputs of dispatching every message before the first END, in order, each under its own fault; the consumer ends closed if and only if the queue holds an END |
| Receiver.UnparsableIsSkipped | src/main/java/de/uzl/itcr/mimic4fhir/queue/Receiver.java:125-129 | a message whose bundle does not parse is skipped: the rest of the queue is handled as if it were not there |
| Receiver.RunStopsAtEnd | src/main/java/de/uzl/itcr/mimic4fhir/queue/Receiver.java:113-122 | the first END stops the run: it and every message after it are never dispatched |
| Receiver.TerminationIgnoresNumbers | src/main/java/de/uzl/itcr/mimic4fhir/queue/Receiver.java:110-113 | whether a queue stops depends only on the bundle fields, not on the numbers |
| Receiver.ConsolePrintsEachOnce | src/main/java/de/uzl/itcr/mimic4fhir/queue/Receiver.java:146-148 | in console mode each message before the END whose bundle parses is printed exactly once, in queue order |
| Receiver.RunKeepsFile | src/main/java/de/uzl/itcr/mimic4fhir/queue/Receiver.java:149-151 | in file mode a file that no later message names keeps its content |
| Receiver.FilesHoldEachBundle | src/main/java/de/uzl/itcr/mimic4fhir/queue/Receiver.java:149-151 | in file mode, with pairwise distinct labels none of which is "0", every message before the END whose write succeeds ends up in its own file, and no file exists for a message whose parse or write failed |
| ICD9MapperLookup.Ending | src/main/java/de/uzl/itcr/mimic4fhir/tools/ICD9MapperLookup.java:74-75 | the ending is the suffix from index 5 of a code longer than five characters, else the suffix from index 4 |
| ICD9MapperLookup.Bucket | src/main/java/de/uzl/itcr/mimic4fhir/tools/ICD9MapperLookup.java:67-87 | a bucket holds the candidates of one kind, in list order, and is never longer than the list |
| ICD9MapperLookup.FirstOfKindMember | src/main/java/de/uzl/itcr/mimic4fhir/tools/ICD9MapperLookup.java:76-86 | a candidate of a kind is found if and only if the list holds one, and what is found is a member of that kind |
| ICD9MapperLookup.FirstOfKindAppend | src/main/java/de/uzl/itcr/mimic4fhir/tools/ICD9MapperLookup.java:69-87 | appending a candidate changes the first of a kind only when the list had none of that kind |
| ICD9MapperLookup.BucketHead | src/main/java/de/uzl/itcr/mimic4fhir/tools/ICD9MapperLookup.java:90-95 | a bucket is empty if and only if the list has no candidate of its kind; otherwise its head is the first such candidate |
| ICD9MapperLookup.OtherBucketIsAll | src/main/java/de/uzl/itcr/mimic4fhir/tools/ICD9MapperLookup.java:83-85 | when no candidate ends in 8 or 9, the third bucket is the whole list |
| ICD9MapperLookup.NoNineNoEight | src/main/java/de/uzl/itcr/mimic4fhir/tools/ICD9MapperLookup.java:96-98 | when neither an 8-ending nor a 9-ending is found, every candidate is of the third kind |
| ICD9MapperLookup.PreferredIsCandidate | src/main/java/de/uzl/itcr/mimic4fhir/tools/ICD9MapperLookup.java:88-99 | the chosen code is one of the candidates, and there is one if and only if the list is non-empty |
| ICD9MapperLookup.PreferenceOrder | src/main/java/de/uzl/itcr/mimic4fhir/tools/ICD9MapperLookup.java:88-99 | a candidate ending in 9 always makes a 9-ending win; an 8-ending makes the choice a 9- or 8-ending |
| ICD9MapperLookup.Classify | src/main/java/de/uzl/itcr/mimic4fhir/tools/ICD9MapperLookup.java:67-87 | the loop either fails, exactly when a candidate is shorter than four characters, or returns the three buckets |
| ICD9MapperLookup.Cached | src/main/java/de/uzl/itcr/mimic4fhir/tools/ICD9MapperLookup.java:57-60 | a stored "NULL" reads as null and any other stored value as that code |
| ICD9MapperLookup.ICD10GMStoresAtMostKey | src/main/java/de/uzl/itcr/mimic4fhir/tools/ICD9MapperLookup.java:55-105 | the ICD-10-GM getter leaves a hit's cache alone, stores nothing on failure, and otherwise stores only its answer (or "NULL") under the normalised key |
| ICD9MapperLookup.SNOMEDStoresAtMostKey | src/main/java/de/uzl/itcr/mimic4fhir/tools/ICD9MapperLookup.java:164-183 | the SNOMED getter leaves a hit's cache alone, stores nothing on failure, and otherwise stores only its answer (or "NULL") under the normalised key |
| ICD9MapperLookup.ICD10GMChoosesCandidate | src/main/java/de/uzl/itcr/mimic4fhir/tools/ICD9MapperLookup.java:62-99 | a code computed on a miss is the preferred candidate of the server's list |
| ICD9MapperLookup.ICD10GMRepeats | src/main/java/de/uzl/itcr/mimic4fhir/tools/ICD9MapperLookup.java:57-60 | after a call that did not fail, the same call on the new cache gives the same answer and changes nothing, whatever the server would now say |
| ICD9MapperLookup.SNOMEDRepeats | src/main/java/de/uzl/itcr/mimic4fhir/tools/ICD9MapperLookup.java:166-169 | the same memoisation for the SNOMED getter, no-match answers included |
| ICD9MapperLookup.KeyIgnoresSpaces | src/main/java/de/uzl/itcr/mimic4fhir/tools/ICD9MapperLookup.java:56-165 | codes that differ only in whitespace share one cache entry and get one answer from both getters |
| ICD9MapperLookup.ICD10GMFailure | src/main/java/de/uzl/itcr/mimic4fhir/tools/ICD9MapperLookup.java:75-98 | on a miss with a match, the getter fails if and only if the candidate list is empty or holds a code shorter than four characters |
| ICD9MapperLookup.Mapper.constructor | src/main/java/de/uzl/itcr/mimic4fhir/tools/ICD9MapperLookup.java:49-53 | both caches start empty |
| ICD9MapperLookup.Mapper.GetICD10GMCode | src/main/java/de/uzl/itcr/mimic4fhir/tools/ICD9MapperLookup.java:55-105 | answer and new cache are those of the specification `GetICD10GM` on the old cache |
| ICD9MapperLookup.Mapper.GetSNOMEDCode | src/main/java/de/uzl/itcr/mimic4fhir/tools/ICD9MapperLookup.java:164-183 | answer and new cache are those of the specification `GetSNOMED` on the old cache |
| MemoCache.Lookup | src/main/java/de/uzl/itcr/mimic4fhir/tools/ProcedureSNOMEDLookup.java:56-67 | a hit answers the stored value; a miss answers the fetch and stores it; either way the key is present afterwards, and no other entry changes |
| MemoCache.LookupRepeats | src/main/java/de/uzl/itcr/mimic4fhir/tools/ProcedureSNOMEDLookup.java:56-57 | a second lookup of the same key gives the same value and leaves the map alone, whatever the fetch would now answer |
| MemoCache.HitIgnoresFetch | src/main/java/de/uzl/itcr/mimic4fhir/tools/ProcedureSNOMEDLookup.java:56-57 | a hit never consults the fetch |
| ProcedureSNOMEDLookup.Icd9Key | src/main/java/de/uzl/itcr/mimic4fhir/tools/ProcedureSNOMEDLookup.java:53-55 | the key is the trimmed code with a dot at index 2; there is none (the exception of `substring`) if and only if the trimmed code is shorter than two characters |
| ProcedureSNOMEDLookup.Icd9KeyRoundTrip | src/main/java/de/uzl/itcr/mimic4fhir/tools/ProcedureSNOMEDLookup.java:53-55 | deleting the dot from the key gives back the trimmed code |
| ProcedureSNOMEDLookup.Icd9KeyInjective | src/main/java/de/uzl/itcr/mimic4fhir/tools/ProcedureSNOMEDLookup.java:53-55 | two codes share an ICD-9 cache entry if and only if they agree after trimming |
| ProcedureSNOMEDLookup.Icd9SameKeySameList | src/main/java/de/uzl/itcr/mimic4fhir/tools/ProcedureSNOMEDLookup.java:51-68 | after a lookup, any spelling with the same trimmed form is answered from the map with the same list, an empty list included |
| ProcedureSNOMEDLookup.Icd10SameKeySameList | src/main/java/de/uzl/itcr/mimic4fhir/tools/ProcedureSNOMEDLookup.java:70-85 | the same memoisation for ICD-10 codes, whose key is the trimmed code |
| ProcedureSNOMEDLookup.Lookup.constructor | src/main/java/de/uzl/itcr/mimic4fhir/tools/ProcedureSNOMEDLookup.java:45-49 | both maps start empty |
| ProcedureSNOMEDLookup.Lookup.GetSnomedForIcd9 | src/main/java/de/uzl/itcr/mimic4fhir/tools/ProcedureSNOMEDLookup.java:51-68 | a code too short for its key fails and leaves the map; otherwise answer and new map are those of `MemoCache.Lookup` under the key; the ICD-10 map is untouched |
| ProcedureSNOMEDLookup.Lookup.GetSnomedForIcd10 | src/main/java/de/uzl/itcr/mimic4fhir/tools/ProcedureSNOMEDLookup.java:70-85 | answer and new map are those of `MemoCache.Lookup` under the trimmed code; the ICD-9 map is untouched |
| RxNormLookup.Wrap | src/main/java/de/uzl/itcr/mimic4fhir/tools/RxNormLookup.java:124-128 | a fetched list is stored with data if and only if it is non-empty, and then holds exactly that list |
| RxNormLookup.Unwrap | src/main/java/de/uzl/itcr/mimic4fhir/tools/RxNormLookup.java:119-121 | a hit answers the stored data if and only if the entry has a value, and null otherwise |
| RxNormLookup.UnwrapWrap | src/main/java/de/uzl/itcr/mimic4fhir/tools/RxNormLookup.java:124-130 | what a miss answers equals what a later hit answers: the list when it is non-empty, null otherwise |
| RxNormLookup.CachedNeverEmpty | src/main/java/de/uzl/itcr/mimic4fhir/tools/RxNormLookup.java:118-136 | a getter never answers an empty list and keeps every map free of empty data; a miss answers the fetched list or null |
| RxNormLookup.NegativeRemembered | src/main/java/de/uzl/itcr/mimic4fhir/tools/RxNormLookup.java:119-128 | a null answer is remembered: the same call on the new map answers null again without fetching |
| RxNormLookup.IngredientsOfMembers | src/main/java/de/uzl/itcr/mimic4fhir/tools/RxNormLookup.java:200-218 | an ingredient is listed for an NDC if and only if one of its concepts lists it |
| RxNormLookup.Lookup.constructor | src/main/java/de/uzl/itcr/mimic4fhir/tools/RxNormLookup.java:50-54 | all three maps start empty |
| RxNormLookup.Lookup.GetRxNormForNdc | src/main/java/de/uzl/itcr/mimic4fhir/tools/RxNormLookup.java:118-137 | answer and new map are those of the wrapped memoised fetch; the answer is never an empty list |
| RxNormLookup.Lookup.GetRxNormForGsn | src/main/java/de/uzl/itcr/mimic4fhir/tools/RxNormLookup.java:145-164 | the same for GSN keys and their own map |
| RxNormLookup.Lookup.FindIngredientsForNdc | src/main/java/de/uzl/itcr/mimic4fhir/tools/RxNormLookup.java:200-218 | the loop returns the ingredients of every concept of the NDC, appended in concept order |
| RxNormLookup.Lookup.GetIngredientsForNdc | src/main/java/de/uzl/itcr/mimic4fhir/tools/RxNormLookup.java:166-188 | answer and new map are those of the wrapped memoised ingredient fetch; the answer is never an empty list |
| StationManager.DropSpaces | src/main/java/de/uzl/itcr/mimic4fhir/model/manager/StationManager.java:65 | the result is a suffix of the input and starts with a non-whitespace character, or is empty |
| StationManager.ReplaceSpaceRuns | src/main/java/de/uzl/itcr/mimic4fhir/model/manager/StationManager.java:65-93 | the result contains no whitespace and is never longer than the input |
| StationManager.ReplaceSpaceRunsKeepsClean | src/main/java/de/uzl/itcr/mimic4fhir/model/manager/StationManager.java:65-93 | a name without whitespace is kept as it is |
| StationManager.ReplaceSpaceRunsConcat | src/main/java/de/uzl/itcr/mimic4fhir/model/manager/StationManager.java:65-93 | after a piece that does not end in whitespace, the replacement of a concatenation is the concatenation of the replacements |
| StationManager.RunBecomesOneUnderscore | src/main/java/de/uzl/itcr/mimic4fhir/model/manager/StationManager.java:65-93 | anywhere in a name, a maximal run of one or more whitespace characters becomes a single underscore and the text on both sides is replaced independently |
| StationManager.NewOrganization | src/main/java/de/uzl/itcr/mimic4fhir/model/manager/StationManager.java:59-75 | the ward's Organization has the given id, the raw name as name, the trimmed name as identifier value, and an identifier system that is the Organization base followed by a whitespace-free suffix |
| StationManager.NewLocation | src/main/java/de/uzl/itcr/mimic4fhir/model/manager/StationManager.java:87-108 | the ward's Location has the given id, the raw name, the trimmed name as identifier value, the given managing Organization, and the Location base followed by a whitespace-free suffix as identifier system |
| StationManager.IdentifiersAgree | src/main/java/de/uzl/itcr/mimic4fhir/model/manager/StationManager.java:65-94 | a station's Organization and Location have the same identifier value, the trimmed name, and the same system suffix after their base URLs |
| StationManager.StationsOfKeys | src/main/java/de/uzl/itcr/mimic4fhir/model/manager/StationManager.java:38-43 | exactly the non-null names are keys of the station map, each mapped to the station of that name |
| StationManager.Manager.constructor | src/main/java/de/uzl/itcr/mimic4fhir/model/manager/StationManager.java:33-44 | the loop builds the station map of every non-null name; both resource maps start empty |
| StationManager.Manager.GetStation | src/main/java/de/uzl/itcr/mimic4fhir/model/manager/StationManager.java:46-52 | returns the station stored under the name, or under "Unknown" for a null name, and null if and only if there is none |
| StationManager.Manager.GetOrganization | src/main/java/de/uzl/itcr/mimic4fhir/model/manager/StationManager.java:54-80 | a stored Organization is returned unchanged; otherwise a new one for the station is stored and returned; afterwards the map holds the returned one |
| StationManager.Manager.GetLocation | src/main/java/de/uzl/itcr/mimic4fhir/model/manager/StationManager.java:82-113 | a stored Location is returned unchanged; otherwise a new ward Location is stored whose managing organization is the station's Organization, created first if missing |
| ImagingManager.StudyRecord.constructor | src/main/java/de/uzl/itcr/mimic4fhir/model/MImagingStudy.java:22-29 | a study record holds the given ids and path and no attached ImagingStudy or Endpoint |
| ImagingManager.ReportRecord.constructor | src/main/java/de/uzl/itcr/mimic4fhir/model/MDiagnosticReport.java:26-34 | a report record holds the given subject, text and studies and no DiagnosticReport yet |
| ImagingManager.NewEndpoint | src/main/java/de/uzl/itcr/mimic4fhir/model/manager/ImagingManager.java:67-87 | a new Endpoint is active, of WADO-URI connection type and image payload, with the given id and the study's path as address |
| ImagingManager.CreateEndpoint | src/main/java/de/uzl/itcr/mimic4fhir/model/manager/ImagingManager.java:63-93 | an endpoint attached to the record is returned unchanged; otherwise a new active WADO endpoint whose address is the record's path is attached and returned |
| ImagingManager.CreateResource | src/main/java/de/uzl/itcr/mimic4fhir/model/manager/ImagingManager.java:36-61 | an attached ImagingStudy is returned as it is; otherwise a new study is built, never stored, with the record's study id and subject, the endpoint (created only if missing) and the DICOM id as its one series |
| ImagingManager.CreateDiagnosticReport | src/main/java/de/uzl/itcr/mimic4fhir/model/manager/ImagingManager.java:95-124 | an attached report is returned unchanged; otherwise a final report for the subject with the report text is attached, whose i-th study reference is the id of the record's i-th study; no study record gains an ImagingStudy, every study without one ends with an Endpoint attached, and an Endpoint already attached is kept |
| AdmissionManager.EncounterClassAsWritten | src/main/java/de/uzl/itcr/mimic4fhir/model/manager/AdmissionManager.java:65-102 | the admission-type switch exactly as written (fall-through and misspelt label included) always yields a coding of the encounter-class value set with code and display |
| AdmissionManager.EncounterClass | src/main/java/de/uzl/itcr/mimic4fhir/model/manager/AdmissionManager.java:65-102 | the switch with every case closed by `break` and "ELECTIVE" spelt as in MIMIC-IV also always yields a coding of the encounter-class value set with code and display |
| AdmissionManager.ClassFallsThrough | src/main/java/de/uzl/itcr/mimic4fhir/model/manager/AdmissionManager.java:65-78 | as written, a same-day surgery and an observation admission fall through to "normalstationaer", like the misspelt elective case |
| AdmissionManager.ElectiveIsUnmatched | src/main/java/de/uzl/itcr/mimic4fhir/model/manager/AdmissionManager.java:74-101 | as written, an admission of type "ELECTIVE" reaches the default class "N" |
| AdmissionManager.ClassTable | src/main/java/de/uzl/itcr/mimic4fhir/model/manager/AdmissionManager.java:65-102 | with every case ending in `break` and the spelling "ELECTIVE", each listed admission type gets its own class and any other type gets "N" |
| AdmissionManager.ClassAgreesElsewhere | src/main/java/de/uzl/itcr/mimic4fhir/model/manager/AdmissionManager.java:79-101 | the switch as written and the intended table agree on every type except the three named by the first cases and "ELECTIVE" |
| AdmissionManager.DischargeDisposition | src/main/java/de/uzl/itcr/mimic4fhir/model/manager/AdmissionManager.java:118-184 | the disposition always has exactly one coding of the discharge code system, "039" for a null location |
| JavaSwitch.SwitchResult | src/main/java/de/uzl/itcr/mimic4fhir/model/manager/AdmissionManager.java:127-182 | a switch sets one of its cases' values or its default, never anything else |
| JavaSwitch.SwitchKeeps | src/main/java/de/uzl/itcr/mimic4fhir/model/manager/AdmissionManager.java:65-102 | a property shared by every case value and the default holds of whatever the switch leaves, with or without fall-through |
| JavaSwitch.RunIsSomeValue | src/main/java/de/uzl/itcr/mimic4fhir/model/manager/AdmissionManager.java:65-102 | the value a switch entry runs into is the value of some later case |
| AdmissionManager.DischargeTable | src/main/java/de/uzl/itcr/mimic4fhir/model/manager/AdmissionManager.java:127-182 | the grouped discharge locations get codes 019, 119, 079 and 109, and an unlisted location gets "039" like a null one |
| AdmissionManager.AdmitSource | src/main/java/de/uzl/itcr/mimic4fhir/model/manager/AdmissionManager.java:192-233 | the admit source is absent for a null location and otherwise holds at most one coding |
| AdmissionManager.AdmitSourceCases | src/main/java/de/uzl/itcr/mimic4fhir/model/manager/AdmissionManager.java:195-228 | the admit source is absent if and only if the location is null or "** INFO NOT AVAILABLE **"; an unlisted location keeps an empty admit source; an emergency-room admission is coded "N" |
| AdmissionManager.DiagnosisComponents | src/main/java/de/uzl/itcr/mimic4fhir/model/manager/AdmissionManager.java:104-110 | one diagnosis component per diagnosis, in order, each referencing "<admissionId>_<seqNumber>" and ranked by its sequence number |
| AdmissionManager.LocationComponents | src/main/java/de/uzl/itcr/mimic4fhir/model/manager/AdmissionManager.java:236-247 | one completed ward component per transfer, in order, each pointing at the stored Location of the transfer's station and spanning the transfer's period; fails if and only if a care unit names no station; stored Locations are kept |
| AdmissionManager.TransferLocation | src/main/java/de/uzl/itcr/mimic4fhir/model/manager/AdmissionManager.java:238-246 | the component of one transfer points at the stored Location of its station; it fails if and only if the care unit (or "Unknown" for null) names no station |
| AdmissionManager.LocationsMatchExtend | src/main/java/de/uzl/itcr/mimic4fhir/model/manager/AdmissionManager.java:237-247 | adding the next transfer's component keeps every earlier component pointing at its station's Location |
| AdmissionManager.KnownStationsExtend | src/main/java/de/uzl/itcr/mimic4fhir/model/manager/AdmissionManager.java:237-239 | the transfers handled so far all name known stations |
| AdmissionManager.CreateAdmission | src/main/java/de/uzl/itcr/mimic4fhir/model/manager/AdmissionManager.java:34-254 | the Encounter has the given id, the "VN" identifier of the admission id, the KDS profile, the patient, the admission period and status finished; its class comes from the switch as written or from the intended table, as the flag says; its disposition and admit source come from their tables; its diagnosis and location components are those above; it fails if and only if a transfer's station is unknown |
| AdmissionManager.ConditionRefsDistinct | src/main/java/de/uzl/itcr/mimic4fhir/model/manager/AdmissionManager.java:107 | diagnoses with distinct sequence numbers reference distinct Conditions |
| Records.Joined | src/main/java/de/uzl/itcr/mimic4fhir/model/manager/AdmissionManager.java:107 | "<prefix>_<n>" starts with the prefix, then an underscore |
| Records.JoinedInjective | src/main/java/de/uzl/itcr/mimic4fhir/model/manager/AdmissionManager.java:107 | "<prefix>_<n>" determines both the prefix and the number |
| PatientManager.GenderOf | src/main/java/de/uzl/itcr/mimic4fhir/model/manager/PatientManager.java:87-110 | no gender is set exactly for "O" under plain R4; the German "X" extension comes only together with gender other |
| PatientManager.GenderTable | src/main/java/de/uzl/itcr/mimic4fhir/model/manager/PatientManager.java:87-110 | male if and only if "M", female if and only if "F", other if and only if "O" under KDS, unknown if and only if the value is none of the three |
| PatientManager.MaritalStatus | src/main/java/de/uzl/itcr/mimic4fhir/model/manager/PatientManager.java:141-168 | a marital status is set if and only if the first admission has one |
| PatientManager.MaritalTable | src/main/java/de/uzl/itcr/mimic4fhir/model/manager/PatientManager.java:142-166 | each of the five listed statuses gets its own code; any other value gets "UNK" |
| PatientManager.Language | src/main/java/de/uzl/itcr/mimic4fhir/model/manager/PatientManager.java:171-453 | a null language adds no communication |
| PatientManager.LanguageListed | src/main/java/de/uzl/itcr/mimic4fhir/model/manager/PatientManager.java:445-452 | a language is added if and only if its MIMIC code is listed in the switch |
| PatientManager.UrduSynonyms | src/main/java/de/uzl/itcr/mimic4fhir/model/manager/PatientManager.java:180-184 | "URDU" and "*URD" both give Urdu |
| PatientManager.EnglishCode | src/main/java/de/uzl/itcr/mimic4fhir/model/manager/PatientManager.java:201-204 | "ENGL" gives English |
| PatientManager.AmericanInLastCases | src/main/java/de/uzl/itcr/mimic4fhir/model/manager/PatientManager.java:330-333 | within the later case groups, "AMER" gives English |
| PatientManager.AmericanCode | src/main/java/de/uzl/itcr/mimic4fhir/model/manager/PatientManager.java:175-447 | "AMER" gives English in the whole switch |
| PatientManager.EnglishSynonyms | src/main/java/de/uzl/itcr/mimic4fhir/model/manager/PatientManager.java:201-333 | "ENGL" and "AMER", in different case groups, give the same English coding |
| PatientManager.IdentityOf | src/main/java/de/uzl/itcr/mimic4fhir/model/manager/PatientManager.java:36-63 | the identifier always carries the subject id in the patient system and the official family name is "Patient_<id>"; the own-name extension is present if and only if the profile set is KDS |
| PatientManager.CreatePatient | src/main/java/de/uzl/itcr/mimic4fhir/model/manager/PatientManager.java:33-461 | the Patient exists if and only if the gender is non-null; it has the given id, the birth date marked "masked", the KDS profile if and only if KDS, a deceased date when there is a death date and `false` otherwise; its identifier and name are those of `IdentityOf`, its gender and German gender extension those of `GenderOf`, and only KDS adds the example address; marital status and language come from the first admission through their tables, and are absent without admissions |
| PatientManager.FirstAdmissionDecides | src/main/java/de/uzl/itcr/mimic4fhir/model/manager/PatientManager.java:134-136 | marital status and language depend only on the first admission |
| PatientManager.CommunicationFromTable | src/main/java/de/uzl/itcr/mimic4fhir/model/manager/PatientManager.java:171-453 | at most one communication language, present if and only if the first admission has a language code the switch lists |
| DiagnoseManager.ReturnCode | src/main/java/de/uzl/itcr/mimic4fhir/model/manager/DiagnoseManager.java:64-67 | a getter's answer reads as a code if and only if it is a code, and as null otherwise |
| DiagnoseManager.Codings | src/main/java/de/uzl/itcr/mimic4fhir/model/manager/DiagnoseManager.java:58-83 | under KDS an ICD-9 diagnosis gets a SNOMED coding (null code allowed) and, only when the mapper finds one, an ICD-10-GM coding of version 2020; another ICD version gets one ICD-10-GM coding of the normalised code; under R4 the raw code is kept as ICD-9-CM; a getter that throws fails the conversion, which happens only under KDS for ICD-9 |
| DiagnoseManager.CreateCondition | src/main/java/de/uzl/itcr/mimic4fhir/model/manager/DiagnoseManager.java:35-92 | the Condition has the given id, the patient, the identifier "<encId>_<seqNumber>" in the diags system and the codings above; profile and recorded-date absent reason "unknown" are present if and only if KDS |
| DiagnoseManager.CreateResource | src/main/java/de/uzl/itcr/mimic4fhir/model/manager/DiagnoseManager.java:59-79 | under KDS for ICD-9 the whitespace-free code is looked up for SNOMED and then, unless that throws, for ICD-10-GM, with both caches updated as the getters do; otherwise no cache changes |
| DiagnoseManager.StrippingBeforeLookupIsRedundant | src/main/java/de/uzl/itcr/mimic4fhir/model/manager/DiagnoseManager.java:61 | deleting whitespace before the lookups changes neither the answers nor the caches |
| DiagnoseManager.KdsIcd10CodeRecoversRawCode | src/main/java/de/uzl/itcr/mimic4fhir/model/manager/DiagnoseManager.java:75-77 | the ICD-10-GM code of a non-ICD-9 diagnosis has no whitespace, and deleting its inserted dot gives back the raw code without whitespace |
| DiagnoseManager.IdentifierMatchesEncounter | src/main/java/de/uzl/itcr/mimic4fhir/model/manager/DiagnoseManager.java:52 | a diagnosis whose encounter id is the admission id is identified by the same "<admissionId>_<seq>" the Encounter references |
| DiagnoseManager.IdentifiersDistinguish | src/main/java/de/uzl/itcr/mimic4fhir/model/manager/DiagnoseManager.java:52 | two Conditions share an identifier if and only if their printed encounter ids and their sequence numbers agree |
| ProcedureManager.SnomedCodings | src/main/java/de/uzl/itcr/mimic4fhir/model/manager/ProcedureManager.java:86-89 | one SNOMED coding per translated code, in the order the lookup returned them |
| ProcedureManager.KdsCode | src/main/java/de/uzl/itcr/mimic4fhir/model/manager/ProcedureManager.java:72-91 | an empty translation gives no coding, the absent reason "asked-unknown" and the explanatory text; otherwise the codings and the long title, with no absent reason |
| ProcedureManager.CreateProcedure | src/main/java/de/uzl/itcr/mimic4fhir/model/manager/ProcedureManager.java:37-119 | the Procedure has the given id, subject, encounter, profile, status completed and identifier "<encId>_<seqNumber>"; under KDS its code comes from the translation and performed is "unknown"; under R4 it has the raw code as one ICD-9-CM coding; it fails if and only if the KDS lookup throws |
| ProcedureManager.AddSnomedCodings | src/main/java/de/uzl/itcr/mimic4fhir/model/manager/ProcedureManager.java:87-89 | the loop builds exactly the SNOMED codings of the codes |
| ProcedureManager.Found | src/main/java/de/uzl/itcr/mimic4fhir/model/manager/ProcedureManager.java:61-70 | the KDS lookup fails if and only if an ICD-9 code is too short to key; with a cache that agrees with the terminology service, the codes found are the service's answer for the dotted ICD-9 key or the trimmed ICD-10 code |
| ProcedureManager.CreateResource | src/main/java/de/uzl/itcr/mimic4fhir/model/manager/ProcedureManager.java:55-112 | under R4 no lookup table changes; under KDS the result is that of the lookup for the row's ICD version, read in the tables before the call |
| ProcedureManager.SnomedCodesReadBack | src/main/java/de/uzl/itcr/mimic4fhir/model/manager/ProcedureManager.java:86-89 | the translated codes can be read back from the codings, in order |
| ProcedureManager.KdsCodeIsCodedOrAbsent | src/main/java/de/uzl/itcr/mimic4fhir/model/manager/ProcedureManager.java:72-91 | under KDS the code carries codings if and only if the translation is non-empty, and the absent reason if and only if it has no codings |
| ProcedureManager.R4IgnoresVersion | src/main/java/de/uzl/itcr/mimic4fhir/model/manager/ProcedureManager.java:104-111 | under R4 the ICD version plays no part: ICD-10 codes are labelled ICD-9-CM as well |
| ProcedureManager.ShortIcd9CodeFails | src/main/java/de/uzl/itcr/mimic4fhir/model/manager/ProcedureManager.java:64-66 | a KDS ICD-9 procedure fails if and only if its trimmed code is shorter than two characters |
| ProcedureManager.IdentifiersDistinguish | src/main/java/de/uzl/itcr/mimic4fhir/model/manager/ProcedureManager.java:50 | two Procedures share an identifier if and only if encounter ids and sequence numbers agree |
| MChartevent.Loinc | src/main/java/de/uzl/itcr/mimic4fhir/model/MChartevent.java:168-211 | with the oxygen case closed, every label gets one LOINC coding with a code and a display |
| MChartevent.LoincAsWritten | src/main/java/de/uzl/itcr/mimic4fhir/model/MChartevent.java:168-211 | the switch exactly as written, with the oxygen case missing its `break`, still gives every label one LOINC coding with a code and a display |
| MChartevent.LoincOf | src/main/java/de/uzl/itcr/mimic4fhir/model/MChartevent.java:168-211 | the switch as written or corrected, as the flag says: the two differ only on the oxygen label, which as written is coded body temperature |
| MChartevent.OxygenFallsThrough | src/main/java/de/uzl/itcr/mimic4fhir/model/MChartevent.java:178-186 | as written, "PAR-Oxygen saturation" falls through into the temperature case and is coded 8310-5 Body Temperature |
| MChartevent.OxygenCoded | src/main/java/de/uzl/itcr/mimic4fhir/model/MChartevent.java:178-179 | with the missing break added, the oxygen label is coded 2708-6 Oxygen Saturation |
| MChartevent.FallThroughOnlyAffectsOxygen | src/main/java/de/uzl/itcr/mimic4fhir/model/MChartevent.java:168-211 | every label other than the oxygen label is coded the same with and without the missing break |
| MChartevent.RespiratoryRateCode | src/main/java/de/uzl/itcr/mimic4fhir/model/MChartevent.java:169-174 | the four respiratory-rate labels are coded 9279-1 |
| MChartevent.HeartRateCode | src/main/java/de/uzl/itcr/mimic4fhir/model/MChartevent.java:175-177 | "Heart Rate" is coded 8867-4 |
| MChartevent.TemperatureCode | src/main/java/de/uzl/itcr/mimic4fhir/model/MChartevent.java:180-186 | the five temperature labels are coded 8310-5 |
| MChartevent.HeightCode | src/main/java/de/uzl/itcr/mimic4fhir/model/MChartevent.java:187-190 | the two height labels are coded 8302-2 |
| MChartevent.DiastolicCode | src/main/java/de/uzl/itcr/mimic4fhir/model/MChartevent.java:191-198 | the six diastolic labels are coded 8480-6 |
| MChartevent.SystolicCode | src/main/java/de/uzl/itcr/mimic4fhir/model/MChartevent.java:199-206 | the six systolic labels are coded 8462-4 |
| MChartevent.OtherLabelsAreVitalSigns | src/main/java/de/uzl/itcr/mimic4fhir/model/MChartevent.java:207-211 | every unlisted label is coded 75186-7 Vital Sign |
| MChartevent.MChartevent.constructor | src/main/java/de/uzl/itcr/mimic4fhir/model/MChartevent.java:34-55 | a fresh row has every reference null, number 0 and no numeric value |
| MChartevent.MChartevent.SetNumValue | src/main/java/de/uzl/itcr/mimic4fhir/model/MChartevent.java:93-96 | storing a number also marks the row numeric |
| MChartevent.MChartevent.SetHasNumVal | src/main/java/de/uzl/itcr/mimic4fhir/model/MChartevent.java:61-63 | the numeric flag is set to the argument alone |
| MChartevent.MChartevent.GetFhirObservation | src/main/java/de/uzl/itcr/mimic4fhir/model/MChartevent.java:140-236 | fails if and only if the label is null; otherwise a final Vitalstatus observation with the survey and vital-signs categories, one LOINC coding of the label (from the switch as written or corrected, as the flag says), the given references and the record date, whose value is Vitalstatus "X" if and only if the row is numeric |
| CharteventManager.CreateResource | src/main/java/de/uzl/itcr/mimic4fhir/model/manager/CharteventManager.java:31-141 | fails if and only if KDS meets a null label; under KDS the profile, two categories, one LOINC coding of the label (switch as written or corrected, as the flag says) and a value if and only if numeric; under R4 the label as text and the number with its unit, or the raw string; both carry the row's references and record date |
| CharteventManager.KdsAgreesWithRowConversion | src/main/java/de/uzl/itcr/mimic4fhir/model/manager/CharteventManager.java:37-106 | under KDS the manager builds exactly the row's own getFhirObservation with the row's Patient and Encounter ids |
| CharteventManager.KdsOxygenCoding | src/main/java/de/uzl/itcr/mimic4fhir/model/MChartevent.java:178-186 | under KDS an oxygen-saturation event is coded body temperature by the switch as written and oxygen saturation by the corrected one |
| CharteventManager.KdsValueIgnoresNumber | src/main/java/de/uzl/itcr/mimic4fhir/model/manager/CharteventManager.java:100-105 | a numeric KDS chart event is recorded as Vitalstatus "X" whatever its number |
| CharteventManager.R4ValueKinds | src/main/java/de/uzl/itcr/mimic4fhir/model/manager/CharteventManager.java:115-126 | the R4 value is a quantity if and only if the event is numeric, and a string if and only if it is not |
| LabeventManager.R4Text | src/main/java/de/uzl/itcr/mimic4fhir/model/manager/LabeventManager.java:90-95 | without a non-empty unit the value is unchanged; with one, the result is the value followed by " (", the unit and ")" |
| LabeventManager.LabCode | src/main/java/de/uzl/itcr/mimic4fhir/model/manager/LabeventManager.java:102-111 | the code text is always the measurement type; it has a LOINC coding if and only if the event has a LOINC code |
| LabeventManager.CreateResource | src/main/java/de/uzl/itcr/mimic4fhir/model/manager/LabeventManager.java:32-140 | final, with the lab code, references and date; an Abnormal interpretation if and only if the flag is set; a note if and only if the comment is non-empty; a numeric event has its quantity; KDS adds the ObservationLab profile, the OBI identifier with the event id and "asked-unknown" for a non-numeric event; R4 adds the laboratory category and the string value |
| LabeventManager.R4TextRoundTrip | src/main/java/de/uzl/itcr/mimic4fhir/model/manager/LabeventManager.java:92-94 | the value and the unit can be read back from the R4 string value |
| LabeventManager.R4TextDistinguishes | src/main/java/de/uzl/itcr/mimic4fhir/model/manager/LabeventManager.java:90-95 | two non-numeric events with the same unit get the same R4 string only if their values print the same |
| LabeventManager.KdsIdentifiersDistinguish | src/main/java/de/uzl/itcr/mimic4fhir/model/manager/LabeventManager.java:41-45 | equal KDS identifiers mean equal lab event ids |
| MCaregiver.RoleCoding | src/main/java/de/uzl/itcr/mimic4fhir/model/MCaregiver.java:88-145 | the description (or, when it is null, the label) is looked up first; only an unlisted description falls back to the label table; both null gives no role; every role code is in the practitioner-role system |
| MCaregiver.RoleFoundIffListed | src/main/java/de/uzl/itcr/mimic4fhir/model/MCaregiver.java:90-145 | a role is found if and only if the description is listed, or it is unlisted and the label is listed in the label table, or the description is null and the label is listed in either table |
| MCaregiver.MdSpellingsAreDoctors | src/main/java/de/uzl/itcr/mimic4fhir/model/MCaregiver.java:123-131 | each of the seven MD spellings of the label gives the doctor role |
| MCaregiver.MdCaregiverIsDoctor | src/main/java/de/uzl/itcr/mimic4fhir/model/MCaregiver.java:110-131 | a caregiver with an MD label and a null or unlisted description is a doctor |
| MCaregiver.LabelCodes | src/main/java/de/uzl/itcr/mimic4fhir/model/MCaregiver.java:97-121 | the label "Res" gives nurse; "RN" gives researcher in both tables |
| MCaregiver.MCaregiver.constructor | src/main/java/de/uzl/itcr/mimic4fhir/model/MCaregiver.java:30-33 | a fresh caregiver has id 0 and null label and description |
| MCaregiver.MCaregiver.GetFhirRepresentation | src/main/java/de/uzl/itcr/mimic4fhir/model/MCaregiver.java:58-75 | the Practitioner has the given id, the practitioner system, the caregiver id as identifier value, and the same id in its family name and narrative |
| MCaregiver.MCaregiver.GetFhirRepresentationRole | src/main/java/de/uzl/itcr/mimic4fhir/model/MCaregiver.java:81-152 | a role exists if and only if a role code is found; it carries the pracRole identifier with the caregiver id and exactly that one coding |
| MCaregiver.PractitionerIdentifiersDistinguish | src/main/java/de/uzl/itcr/mimic4fhir/model/MCaregiver.java:62 | equal Practitioner identifiers mean equal caregiver ids |
| MWard.TypeCodings | src/main/java/de/uzl/itcr/mimic4fhir/model/MWard.java:65-85 | at most one type coding, and one if and only if the care unit is listed |
| MWard.HospitalUnits | src/main/java/de/uzl/itcr/mimic4fhir/model/MWard.java:67-70 | NORMAL and NWARD are hospital units (HU) |
| MWard.CoronaryCare | src/main/java/de/uzl/itcr/mimic4fhir/model/MWard.java:71-73 | CCU is a coronary care unit |
| MWard.IntensiveCareUnits | src/main/java/de/uzl/itcr/mimic4fhir/model/MWard.java:74-79 | CSRU, MICU, SICU and TSICU are intensive care units (ICU) |
| MWard.NeonatalCare | src/main/java/de/uzl/itcr/mimic4fhir/model/MWard.java:80-82 | NICU is coded PEDNICU |
| MWard.MWard.constructor | src/main/java/de/uzl/itcr/mimic4fhir/model/MWard.java:28-30 | a fresh ward has id 0 and a null care unit |
| MWard.MWard.SetCareUnit | src/main/java/de/uzl/itcr/mimic4fhir/model/MWard.java:35-42 | afterwards the care unit is never null: a null argument is stored as "NORMAL", any other as given |
| MWard.MWard.SetWardId | src/main/java/de/uzl/itcr/mimic4fhir/model/MWard.java:47-49 | the ward id is the argument |
| MWard.MWard.GetWardName | src/main/java/de/uzl/itcr/mimic4fhir/model/MWard.java:50-52 | "Ward <id> (<care unit>)" |
| MWard.MWard.GetFhirLocation | src/main/java/de/uzl/itcr/mimic4fhir/model/MWard.java:58-90 | fails if and only if the care unit is null; otherwise the given id, the wards system, identifier "<id>_<care unit>", the ward name and the care unit's type codings |
| MWard.LocationIdentifierInjective | src/main/java/de/uzl/itcr/mimic4fhir/model/MWard.java:61 | the identifier "<id>_<care unit>" determines both the ward id and the care unit |
| MWard.NameShowsCareUnit | src/main/java/de/uzl/itcr/mimic4fhir/model/MWard.java:51 | the care unit can be read back from the ward name, just before the closing parenthesis |
| MNoteevent.Categories | src/main/java/de/uzl/itcr/mimic4fhir/model/MNoteevent.java:100-117 | at most one observation category, in the observation-category system, and one if and only if the note category is listed |
| MNoteevent.EchoIsImaging | src/main/java/de/uzl/itcr/mimic4fhir/model/MNoteevent.java:102-105 | Echo notes are imaging |
| MNoteevent.ProcedureNotes | src/main/java/de/uzl/itcr/mimic4fhir/model/MNoteevent.java:106-109 | ECG and Respiratory notes are procedures |
| MNoteevent.SocialWorkIsSocialHistory | src/main/java/de/uzl/itcr/mimic4fhir/model/MNoteevent.java:110-112 | Social Work notes are social history |
| MNoteevent.TherapyNotes | src/main/java/de/uzl/itcr/mimic4fhir/model/MNoteevent.java:113-116 | Pharmacy and Rehab Services notes are therapy |
| MNoteevent.MNoteevent.constructor | src/main/java/de/uzl/itcr/mimic4fhir/model/MNoteevent.java:30-36 | a fresh note has every reference null, caregiver 0 and no error |
| MNoteevent.MNoteevent.SetHasError | src/main/java/de/uzl/itcr/mimic4fhir/model/MNoteevent.java:41-43 | the error flag is the argument |
| MNoteevent.MNoteevent.SetCategory | src/main/java/de/uzl/itcr/mimic4fhir/model/MNoteevent.java:53-55 | the category is the argument |
| MNoteevent.MNoteevent.GetFhirObservation | src/main/java/de/uzl/itcr/mimic4fhir/model/MNoteevent.java:81-133 | fails if and only if the category is null; the status is entered-in-error if and only if the note has an error; the description is the code text, the text the only note, no value, and the category's observation category |
| PrescriptionManager.FormOf | src/main/java/de/uzl/itcr/mimic4fhir/model/manager/PrescriptionManager.java:76-165 | a form is set if and only if formRx is non-null and listed in the form table; it is one coding with a code and no system |
| PrescriptionManager.CreamForm | src/main/java/de/uzl/itcr/mimic4fhir/model/manager/PrescriptionManager.java:90-94 | CRE and CREA give the same Creme form 10502000 |
| PrescriptionManager.TabletForm | src/main/java/de/uzl/itcr/mimic4fhir/model/manager/PrescriptionManager.java:145-149 | TAB and TABLET give the Tablette form 10219000 |
| PrescriptionManager.UnlistedForm | src/main/java/de/uzl/itcr/mimic4fhir/model/manager/PrescriptionManager.java:158-165 | an unlisted form code such as SOLN, and a null one, give no form |
| PrescriptionManager.SystemCodings | src/main/java/de/uzl/itcr/mimic4fhir/model/manager/PrescriptionManager.java:174-179 | one coding of the system per code, with the code at the same position |
| PrescriptionManager.AtcCodingsMembers | src/main/java/de/uzl/itcr/mimic4fhir/model/manager/PrescriptionManager.java:60-70 | a coding is in the KDS code if and only if it is an ATC code of some ingredient, displayed with that ingredient's name |
| PrescriptionManager.AtcCodingsEmpty | src/main/java/de/uzl/itcr/mimic4fhir/model/manager/PrescriptionManager.java:59-74 | the KDS code has codings if and only if some ingredient has an ATC code |
| PrescriptionManager.IngredientComponents | src/main/java/de/uzl/itcr/mimic4fhir/model/manager/PrescriptionManager.java:168-188 | one component per ingredient, in order |
| PrescriptionManager.KdsMedication | src/main/java/de/uzl/itcr/mimic4fhir/model/manager/PrescriptionManager.java:43-202 | the KDS Medication has the prescription's medId, the Medication profile and the table's form; a code if and only if some ingredient has an ATC code, holding exactly those codes; one component per ingredient, or one absent-reason component: "unknown" without a usable NDC, "asked-unknown" otherwise |
| PrescriptionManager.GsnSingles | src/main/java/de/uzl/itcr/mimic4fhir/model/manager/PrescriptionManager.java:221 | one trimmed code per piece of the space-separated GSN field |
| PrescriptionManager.GsnConcepts | src/main/java/de/uzl/itcr/mimic4fhir/model/manager/PrescriptionManager.java:221-227 | the corrected GSN loop: every concept of every code is collected, and nothing else |
| PrescriptionManager.GsnConceptsAsWritten | src/main/java/de/uzl/itcr/mimic4fhir/model/manager/PrescriptionManager.java:221-227 | the GSN loop as written, where `addAll` of a missing answer aborts; when it completes, every code has contributed at least one concept |
| PrescriptionManager.GsnAsWrittenAgrees | src/main/java/de/uzl/itcr/mimic4fhir/model/manager/PrescriptionManager.java:221-227 | the GSN loop as written completes if and only if every code has concepts, and then agrees with the corrected loop |
| PrescriptionManager.GsnWithoutConceptAborts | src/main/java/de/uzl/itcr/mimic4fhir/model/manager/PrescriptionManager.java:224-227 | a GSN list whose second code has no concept aborts the conversion as written, although the corrected loop finds the first code's concept |
| PrescriptionManager.R4Concepts | src/main/java/de/uzl/itcr/mimic4fhir/model/manager/PrescriptionManager.java:206-228 | the NDC's concepts when a usable NDC has some; otherwise the GSN codes' concepts if and only if a GSN is present |
| PrescriptionManager.RxCodings | src/main/java/de/uzl/itcr/mimic4fhir/model/manager/PrescriptionManager.java:231-235 | one RxNorm coding per concept, with its CUI and name, in order |
| PrescriptionManager.R4Code | src/main/java/de/uzl/itcr/mimic4fhir/model/manager/PrescriptionManager.java:230-253 | the drug name is the text and there is at least one coding: the RxNorm codings when concepts were found, else one system-less coding holding formRx when there is a formulary code, else the NDC, the GSN or "<drug>(Text Only)" |
| PrescriptionManager.R4Medication | src/main/java/de/uzl/itcr/mimic4fhir/model/manager/PrescriptionManager.java:204-262 | the R4 Medication has the fresh id, no profile and no form, the code of the R4 concepts, and the product strength as its only ingredient when present |
| PrescriptionManager.R4MedicationAsWritten | src/main/java/de/uzl/itcr/mimic4fhir/model/manager/PrescriptionManager.java:204-262 | as written, the R4 Medication is missing exactly when the GSN loop is reached and one of the GSN codes has no concept; otherwise it is the corrected R4 Medication |
| PrescriptionManager.AddCodings | src/main/java/de/uzl/itcr/mimic4fhir/model/manager/PrescriptionManager.java:65-68 | the loop appends exactly one coding of the system per code |
| PrescriptionManager.CollectAtcCodings | src/main/java/de/uzl/itcr/mimic4fhir/model/manager/PrescriptionManager.java:61-70 | the nested loop builds exactly the ATC codings of the ingredients |
| PrescriptionManager.CollectIngredients | src/main/java/de/uzl/itcr/mimic4fhir/model/manager/PrescriptionManager.java:168-188 | the loop builds exactly the ingredient components |
| PrescriptionManager.CollectRxCodings | src/main/java/de/uzl/itcr/mimic4fhir/model/manager/PrescriptionManager.java:231-235 | the loop builds exactly the RxNorm codings of the concepts |
| PrescriptionManager.CollectGsnConcepts | src/main/java/de/uzl/itcr/mimic4fhir/model/manager/PrescriptionManager.java:221-227 | the loop collects the concepts of the GSN codes in order and keeps the GSN cache faithful to the server |
| PrescriptionManager.CreateKdsMedication | src/main/java/de/uzl/itcr/mimic4fhir/model/manager/PrescriptionManager.java:45-202 | the KDS branch builds KdsMedication of the ingredients the shared lookup yields for a usable NDC, read in its cache before the call, and keeps the lookup valid |
| PrescriptionManager.CreateR4Medication | src/main/java/de/uzl/itcr/mimic4fhir/model/manager/PrescriptionManager.java:204-262 | the R4 branch builds, with a lookup of its own, the R4 Medication as written (possibly aborted) or corrected, as the flag says |
| PrescriptionManager.CreateResource | src/main/java/de/uzl/itcr/mimic4fhir/model/manager/PrescriptionManager.java:40-265 | under KDS the result is KdsMedication of the ingredients the shared lookup yields, read in its cache before the call; under R4 it is the R4 Medication as written or corrected, as the flag says, and the shared ingredient cache is unchanged |
| PrescriptionManager.EffectivePeriod | src/main/java/de/uzl/itcr/mimic4fhir/model/manager/PrescriptionManager.java:286-301 | with both dates the period runs from the earlier to the later of them; otherwise it is only the "unknown" absent reason |
| PrescriptionManager.KdsRouteCodings | src/main/java/de/uzl/itcr/mimic4fhir/model/manager/PrescriptionManager.java:303-433 | the SNOMED coding has a code if and only if the route is listed; an unlisted route gets the EDQM code 20062000 |
| PrescriptionManager.R4Route | src/main/java/de/uzl/itcr/mimic4fhir/model/manager/PrescriptionManager.java:601-705 | a listed route gives exactly one SNOMED coding and no text; an unlisted one only the route as text |
| PrescriptionManager.KdsRoute | src/main/java/de/uzl/itcr/mimic4fhir/model/manager/PrescriptionManager.java:434-435 | the KDS route is the route as text, with no coding |
| PrescriptionManager.IntravenousRoute | src/main/java/de/uzl/itcr/mimic4fhir/model/manager/PrescriptionManager.java:604-611 | every intravenous abbreviation gives the SNOMED route 47625008 under R4, and no coding under KDS |
| PrescriptionManager.TransdermalTabQuirk | src/main/java/de/uzl/itcr/mimic4fhir/model/manager/PrescriptionManager.java:677-678 | the R4 transdermal display ends in a tab; the KDS one does not |
| PrescriptionManager.UnlistedRoute | src/main/java/de/uzl/itcr/mimic4fhir/model/manager/PrescriptionManager.java:429-431 | an unlisted route is kept as text under R4 and gets EDQM "not applicable" under KDS |
| PrescriptionManager.UcumUnit | src/main/java/de/uzl/itcr/mimic4fhir/model/manager/PrescriptionManager.java:449-567 | a UCUM unit is found if and only if the dose unit is listed |
| PrescriptionManager.MicrogramUnit | src/main/java/de/uzl/itcr/mimic4fhir/model/manager/PrescriptionManager.java:459-461 | mcg is ug |
| PrescriptionManager.MillilitrePerHourUnit | src/main/java/de/uzl/itcr/mimic4fhir/model/manager/PrescriptionManager.java:538-541 | ml/hr and mL/hr are both mL/h |
| PrescriptionManager.UnlistedUnit | src/main/java/de/uzl/itcr/mimic4fhir/model/manager/PrescriptionManager.java:564-566 | an unlisted unit such as tab has no UCUM unit |
| PrescriptionManager.DoseSegment | src/main/java/de/uzl/itcr/mimic4fhir/model/manager/PrescriptionManager.java:441-445 | the piece has no dash, and a dash-free value is its own piece |
| PrescriptionManager.RangeDosedByUpperEnd | src/main/java/de/uzl/itcr/mimic4fhir/model/manager/PrescriptionManager.java:441-445 | a dose range "<lo>-<hi>" such as "10-20", whose ends hold no dash and are already trimmed, is dosed by its upper end |
| PrescriptionManager.DashHasNoSegment | src/main/java/de/uzl/itcr/mimic4fhir/model/manager/PrescriptionManager.java:441-445 | a dose value "-" splits into no piece, so there is no last segment to take |
| PrescriptionManager.DashSplitsIntoNothing | src/main/java/de/uzl/itcr/mimic4fhir/model/manager/PrescriptionManager.java:441-445 | Java's `"-".split("-")` is empty, because trailing empty strings are removed |
| PrescriptionManager.KdsDoseAborts | src/main/java/de/uzl/itcr/mimic4fhir/model/manager/PrescriptionManager.java:441-445 | with dose value and unit present, a dose value "-" makes the KDS dose throw, and a dose value without a dash never does |
| PrescriptionManager.KdsDose | src/main/java/de/uzl/itcr/mimic4fhir/model/manager/PrescriptionManager.java:438-576 | a KDS dose exists if and only if value and unit are present, the last piece parses as a double and the unit is listed; its value is that parsed number, with the UCUM unit as unit and code |
| PrescriptionManager.R4Dose | src/main/java/de/uzl/itcr/mimic4fhir/model/manager/PrescriptionManager.java:727-737 | an R4 dose exists if and only if the whole value parses as a double; its value is the parsed number, and the unit is kept as given |
| PrescriptionManager.DosesAgree | src/main/java/de/uzl/itcr/mimic4fhir/model/manager/PrescriptionManager.java:441-732 | for a trimmed dose value without a dash and a listed unit, the KDS and the R4 dose exist together and carry the same number |
| PrescriptionManager.DoseText | src/main/java/de/uzl/itcr/mimic4fhir/model/manager/PrescriptionManager.java:579-596 | the text is empty if and only if neither dose nor form is known; it starts with the dose value when there is a dose, and ends with ")" when both are known |
| PrescriptionManager.BuildDoseText | src/main/java/de/uzl/itcr/mimic4fhir/model/manager/PrescriptionManager.java:579-596 | the step-by-step concatenation builds exactly DoseText |
| PrescriptionManager.DoseTextStripAgrees | src/main/java/de/uzl/itcr/mimic4fhir/model/manager/PrescriptionManager.java:579-596 | without whitespace inside the four fields the KDS and R4 dose texts are equal |
| PrescriptionManager.KdsDosage | src/main/java/de/uzl/itcr/mimic4fhir/model/manager/PrescriptionManager.java:438-596 | the KDS dosage has the route as text only, if and only if there is a route; a text if and only if dose or form is known; and a dose only with value and unit present, in the UCUM system with a unit |
| PrescriptionManager.CreateAdministration | src/main/java/de/uzl/itcr/mimic4fhir/model/manager/PrescriptionManager.java:268-745 | fails if and only if a KDS dose value splits into no piece; the identifier is "<encId>_<seqNum>" and the profile, status, medication, subject and context are fixed; under KDS the effective period is set and no dosage is attached; under R4 no period, and the dosage has the R4 route, the dose text and the R4 dose |
| ConnectDB.TransferOf | src/main/java/de/uzl/itcr/mimic4fhir/work/ConnectDB.java:715-733 | a transfer keeps the row's event type, care unit and times |
| ConnectDB.Numbered | src/main/java/de/uzl/itcr/mimic4fhir/work/ConnectDB.java:713-735 | one transfer per row |
| ConnectDB.TransferIdsDistinct | src/main/java/de/uzl/itcr/mimic4fhir/work/ConnectDB.java:715-718 | two transfers at different positions of one admission get different ids, whatever the rows' own transfer ids |
| ConnectDB.GetTransfers | src/main/java/de/uzl/itcr/mimic4fhir/work/ConnectDB.java:704-742 | the loop numbers the transfer rows 1, 2, … in row order |
| ConnectDB.DiagnoseAsWritten | src/main/java/de/uzl/itcr/mimic4fhir/work/ConnectDB.java:564-570 | as written, a diagnosis carries the admission id where the ICD code belongs and no encounter id; version, title, sequence number and patient come from the row |
| ConnectDB.DiagnoseOf | src/main/java/de/uzl/itcr/mimic4fhir/work/ConnectDB.java:564-570 | the corrected diagnosis keeps the row's ICD code, version, title and sequence number, and names the admission as its encounter |
| ConnectDB.DiagnosesOf | src/main/java/de/uzl/itcr/mimic4fhir/work/ConnectDB.java:563-573 | one diagnosis per row |
| ConnectDB.GetDiagnosesAsWritten | src/main/java/de/uzl/itcr/mimic4fhir/work/ConnectDB.java:563-573 | as written, each diagnosis has its ICD code overwritten by the admission id |
| ConnectDB.GetDiagnoses | src/main/java/de/uzl/itcr/mimic4fhir/work/ConnectDB.java:554-577 | the corrected loop yields one corrected diagnosis per row, in order |
| ConnectDB.AsWrittenIdentifierIgnoresAdmission | src/main/java/de/uzl/itcr/mimic4fhir/work/ConnectDB.java:564-569 | as written, every Condition's identifier is "null_<seq>" and its ICD code is the admission id |
| ConnectDB.ConditionIdentifierNamesAdmission | src/main/java/de/uzl/itcr/mimic4fhir/work/ConnectDB.java:564-569 | corrected, a Condition's identifier is the reference its admission's Encounter lists, and diagnoses of different admissions never share one |
| ConnectDB.NewChartEvent | src/main/java/de/uzl/itcr/mimic4fhir/work/ConnectDB.java:411-436 | the loop body for a row with a number builds a fresh chart event holding the row's date, label, value, number and unit, marked numeric, with the patient and admission ids (the relation `ChartEventOf`) |
| ConnectDB.GetChartEvents | src/main/java/de/uzl/itcr/mimic4fhir/work/ConnectDB.java:395-442 | one fresh event per row with a numeric value, in row order, with the row's columns, numeric, and the patient and admission ids |
| ConnectDB.LabeventWith | src/main/java/de/uzl/itcr/mimic4fhir/work/ConnectDB.java:467-502 | the lab event keeps the row's value and unit, is numeric if and only if the row has a number, and carries the patient and admission ids |
| ConnectDB.LabeventAsWritten | src/main/java/de/uzl/itcr/mimic4fhir/work/ConnectDB.java:491-493 | as written, no event is ever abnormal, because the flag is compared with the literal by reference; value, unit, numeric flag and ids are kept |
| ConnectDB.LabeventOf | src/main/java/de/uzl/itcr/mimic4fhir/work/ConnectDB.java:491-493 | corrected, an event is abnormal if and only if its flag is "abnormal" |
| ConnectDB.LabeventFor | src/main/java/de/uzl/itcr/mimic4fhir/work/ConnectDB.java:467-502 | the event of one row, as written or corrected: abnormal if and only if corrected and flagged "abnormal", otherwise the row's columns |
| ConnectDB.AbnormalFlagLost | src/main/java/de/uzl/itcr/mimic4fhir/work/ConnectDB.java:491-493 | as written, an event flagged "abnormal" gets no interpretation; corrected it gets "A" |
| ConnectDB.LabeventsOf | src/main/java/de/uzl/itcr/mimic4fhir/work/ConnectDB.java:458-508 | one lab event per row |
| ConnectDB.GetLabEvents | src/main/java/de/uzl/itcr/mimic4fhir/work/ConnectDB.java:445-509 | one event per row with a value, in row order, each with a value; as written none is abnormal |
| ConnectDB.Runs | src/main/java/de/uzl/itcr/mimic4fhir/work/ConnectDB.java:955-982 | the admitted rows fall into non-empty runs, and there are none exactly when there are no rows |
| ConnectDB.RunsSnoc | src/main/java/de/uzl/itcr/mimic4fhir/work/ConnectDB.java:965-982 | one more row extends the last run when it has the same admission id, and starts a new one otherwise |
| ConnectDB.RunsAreAdmissions | src/main/java/de/uzl/itcr/mimic4fhir/work/ConnectDB.java:965-982 | within a run every row has the same admission id, and neighbouring runs have different ones |
| ConnectDB.RunsOfAdmitted | src/main/java/de/uzl/itcr/mimic4fhir/work/ConnectDB.java:961-964 | every run of admitted rows starts with an admitted row |
| ConnectDB.RunsFlatten | src/main/java/de/uzl/itcr/mimic4fhir/work/ConnectDB.java:965-982 | the runs partition the rows: concatenated, they give back the rows in order |
| ConnectDB.SameAdmissionIsOneRun | src/main/java/de/uzl/itcr/mimic4fhir/work/ConnectDB.java:965-982 | rows that all have the same admission id form one run |
| ConnectDB.TransferRows | src/main/java/de/uzl/itcr/mimic4fhir/work/ConnectDB.java:973-978 | one transfer row per row of a run |
| ConnectDB.AdmissionOf | src/main/java/de/uzl/itcr/mimic4fhir/work/ConnectDB.java:965-981 | an admission takes its id and type from its first row, its diagnoses from the diagnoses query and one numbered transfer per row |
| ConnectDB.StartAdmission | src/main/java/de/uzl/itcr/mimic4fhir/work/ConnectDB.java:966-979 | a row with a new admission id starts the admission of a run of that one row: its columns, its diagnoses as written or corrected, and transfer number 1 |
| ConnectDB.AdmissionGrows | src/main/java/de/uzl/itcr/mimic4fhir/work/ConnectDB.java:973-979 | a further row of the same admission adds one transfer, numbered after the others |
| ConnectDB.AdmissionStarts | src/main/java/de/uzl/itcr/mimic4fhir/work/ConnectDB.java:965-979 | the first row of an admission gives its columns, its diagnoses and transfer number 1 |
| ConnectDB.AdmissionsOf | src/main/java/de/uzl/itcr/mimic4fhir/work/ConnectDB.java:944-982 | one admission per run |
| ConnectDB.AdmissionsSnoc | src/main/java/de/uzl/itcr/mimic4fhir/work/ConnectDB.java:966-971 | one more run adds its admission at the end |
| ConnectDB.Admissions | src/main/java/de/uzl/itcr/mimic4fhir/work/ConnectDB.java:944-982 | one admission per run of admitted rows |
| ConnectDB.AdmissionsAsWritten | src/main/java/de/uzl/itcr/mimic4fhir/work/ConnectDB.java:966-971 | as written, the patient gets every admission but the last |
| ConnectDB.SingleAdmissionIsDropped | src/main/java/de/uzl/itcr/mimic4fhir/work/ConnectDB.java:944-989 | a patient whose rows all belong to one admission has that admission, yet as written ends with none |
| ConnectDB.NoTransferLost | src/main/java/de/uzl/itcr/mimic4fhir/work/ConnectDB.java:973-979 | the admissions' rows, concatenated, are exactly the admitted rows in order |
| ConnectDB.NeighbouringAdmissionsDiffer | src/main/java/de/uzl/itcr/mimic4fhir/work/ConnectDB.java:966-971 | consecutive admissions have different ids |
| ConnectDB.NewAdmissionKeepsFolded | src/main/java/de/uzl/itcr/mimic4fhir/work/ConnectDB.java:966-981 | a row with a new admission id pushes the admission under construction and starts another |
| ConnectDB.SameAdmissionKeepsFolded | src/main/java/de/uzl/itcr/mimic4fhir/work/ConnectDB.java:973-981 | a row with the same admission id adds the next transfer to the admission under construction |
| ConnectDB.FoldRows | src/main/java/de/uzl/itcr/mimic4fhir/work/ConnectDB.java:944-983 | the loop takes the patient columns from the first row; its pushed admissions plus the one under construction are exactly the admissions of the rows |
| ConnectDB.GetPatientBySubjectIdAsWritten | src/main/java/de/uzl/itcr/mimic4fhir/work/ConnectDB.java:935-996 | as written, the patient has the first row's columns and every admission but the last |
| ConnectDB.GetPatientBySubjectId | src/main/java/de/uzl/itcr/mimic4fhir/work/ConnectDB.java:935-996 | corrected, the patient has the first row's columns and one admission per run of admitted rows |
| ConnectDB.FoldAdmittedRow | src/main/java/de/uzl/itcr/mimic4fhir/work/ConnectDB.java:960-983 | a row with an admission id either pushes the admission under construction and starts a new one, or adds its next numbered transfer; the fold stays in step with the runs of admission ids |
| Transformer.LabelInjective | src/main/java/de/uzl/itcr/mimic4fhir/concur/FHIRTransformer.java:103-235 | a queue label "<numPat>_<bundleNumber>" or "<numPat>_<admissionIndex>_<bundleNumber>" determines patient, admission and bundle number |
| Transformer.LabelsDistinct | src/main/java/de/uzl/itcr/mimic4fhir/concur/FHIRTransformer.java:214-246 | flushes in increasing (patient, bundle number) order carry pairwise different labels, so no queue message overwrites another's file |
| Transformer.LabelIsNotZero | src/main/java/de/uzl/itcr/mimic4fhir/Mimic4Fhir.java:210 | no bundle label equals "0", the number of the END message |
| Transformer.WardStep | src/main/java/de/uzl/itcr/mimic4fhir/concur/FHIRTransformer.java:321-331 | one step of the transfer loop: a ward already in locationsInBundle adds nothing, a new ward stores its Location id and adds the Location and the transfer Encounter built for it in this build of the basic part |
| Transformer.WardEntriesAt | src/main/java/de/uzl/itcr/mimic4fhir/concur/FHIRTransformer.java:302-331 | the chain holds two entries per new ward: its Location, then a transfer Encounter whose id is the one drawn for that ward's transfer in the given build of the basic part |
| Transformer.MedicationStep | src/main/java/de/uzl/itcr/mimic4fhir/concur/FHIRTransformer.java:162-173 | one step of the medication loop: a code already in medicationInBundle adds nothing, a new code stores the Medication id and adds a conditional create on "code=<code>" |
| Transformer.AdmissionsSent | src/main/java/de/uzl/itcr/mimic4fhir/concur/FHIRTransformer.java:110-224 | the number of admissions a failing conversion sends in full never exceeds the patient's admissions |
| Transformer.CompletesSendsAll | src/main/java/de/uzl/itcr/mimic4fhir/concur/FHIRTransformer.java:74-226 | a conversion that completes sends every admission; one that does not stops before the last admission or fails before the first |
| Transformer.Converter.constructor | src/main/java/de/uzl/itcr/mimic4fhir/concur/FHIRTransformer.java:68-72 | a new converter has an empty bundle, empty memory maps, bundle number 1 and nothing sent |
| Transformer.Converter.ResetMemoryLists | src/main/java/de/uzl/itcr/mimic4fhir/concur/FHIRTransformer.java:394-398 | the caregiver, location and medication memory maps are emptied |
| Transformer.Converter.FlushBundle | src/main/java/de/uzl/itcr/mimic4fhir/concur/FHIRTransformer.java:214-222 | the current bundle is sent labelled by its flush, the bundle is emptied and the bundle number goes up by one; the labels stay in increasing order |
| Transformer.Converter.AddRankedResources | src/main/java/de/uzl/itcr/mimic4fhir/concur/FHIRTransformer.java:266-296 | each Condition or Procedure is a conditional create on its identifier, in order, and becomes a diagnosis component ranked by its sequence number |
| Transformer.Converter.AddTransfers | src/main/java/de/uzl/itcr/mimic4fhir/concur/FHIRTransformer.java:302-337 | exactly the first sightings of each ward add a Location and a transfer Encounter whose id is the one drawn for that transfer in this build; locationsInBundle becomes the memory after visiting all transfers |
| Transformer.Converter.AddIdentity | src/main/java/de/uzl/itcr/mimic4fhir/concur/FHIRTransformer.java:251-296 | Patient, hospital, Conditions and Procedures are added in that order and the Encounter's diagnosis list is rebuilt from them |
| Transformer.Converter.AddTransferChain | src/main/java/de/uzl/itcr/mimic4fhir/concur/FHIRTransformer.java:298-337 | the transfer chain is added only when the converter builds transfers (always in the threaded converter, only under KDS in the sequential one) |
| Transformer.Converter.CreateBasicBundle | src/main/java/de/uzl/itcr/mimic4fhir/concur/FHIRTransformer.java:248-346 | the bundle gains the identity entries, the transfer chain (its Encounter ids drawn for this patient and bundle number) and finally the admission Encounter; the Encounter's location list is emptied |
| Transformer.Converter.AddMedications | src/main/java/de/uzl/itcr/mimic4fhir/concur/FHIRTransformer.java:160-173 | each medication code seen for the first time in this bundle adds its Medication once; the first Medication id per code is kept |
| Transformer.Converter.AddAdministrations | src/main/java/de/uzl/itcr/mimic4fhir/concur/FHIRTransformer.java:175-185 | every administration is added, referencing the Medication id stored for its code |
| Transformer.Converter.CheckBundleLimit | src/main/java/de/uzl/itcr/mimic4fhir/concur/FHIRTransformer.java:228-246 | a bundle of at most 15000 resources is left alone, with the memory maps unchanged; a larger one is sent under the next label of this admission, the bundle number goes up by one, the caregiver and medication maps are cleared, the basic part of the admission is built again into the new bundle, with transfer Encounter ids drawn for the new bundle number, and the location map is the one that replay leaves |
| Transformer.Converter.AddObservations | src/main/java/de/uzl/itcr/mimic4fhir/concur/FHIRTransformer.java:191-212 | every bundle sent while adding observations was over the limit; the first continues the starting bundle and every later one and the open bundle start with the basic part built for its own bundle number, counting up from the starting one |
| Transformer.Converter.StartAdmission | src/main/java/de/uzl/itcr/mimic4fhir/concur/FHIRTransformer.java:157-185 | an admission's first bundle starts with the basic part, then each new medication, then every administration |
| Transformer.Converter.ProcessAdmission | src/main/java/de/uzl/itcr/mimic4fhir/concur/FHIRTransformer.java:111-224 | an admission sends at least one bundle, all labelled with its admission index; the first holds the first-bundle part, each later one the basic part built for its own bundle number, and all but the last were over the limit |
| Transformer.Converter.AddReports | src/main/java/de/uzl/itcr/mimic4fhir/concur/FHIRTransformer.java:96-101 | every chest X-ray DiagnosticReport is added as a plain create, in order |
| Transformer.Converter.SendReports | src/main/java/de/uzl/itcr/mimic4fhir/concur/FHIRTransformer.java:96-108 | when chest X-rays are enabled and the patient has reports, they are sent first in a bundle of their own labelled without admission index |
| Transformer.Converter.ConvertPatient | src/main/java/de/uzl/itcr/mimic4fhir/concur/FHIRTransformer.java:74-226 | the conversion completes if and only if the injected failure allows it; a patient-level failure sends nothing; otherwise the imaging bundle (if any) comes first and every admission before the failing one sends at least one bundle; all labels are the patient's and distinct from all earlier ones, and after a complete run the bundle number restarts at 1 |
| Transformer.Converter.ProcessPatient | src/main/java/de/uzl/itcr/mimic4fhir/concur/FHIRTransformer.java:74-90 | the threaded converter starts each patient with empty memory maps and the given hospital and then converts it as above, with the same failure behaviour |
| Transformer.Converter.ProcessCaregiver | src/main/java/de/uzl/itcr/mimic4fhir/concur/FHIRTransformer.java:348-380 | a caregiver seen for the first time adds its Practitioner (and role, if any) and its id is stored; a later sighting adds nothing and yields the stored id |
| Transformer.Converter.CloseAdmission | src/main/java/de/uzl/itcr/mimic4fhir/concur/FHIRTransformer.java:214-223 | the admission's last bundle is sent whatever its size under the next label of this admission, the memory maps are cleared, and the admission's messages are complete: the first starts with the first-bundle part, each later one with the basic part of its own bundle number |
| Transformer.Converter.AddObservation | src/main/java/de/uzl/itcr/mimic4fhir/concur/FHIRTransformer.java:193-200 | one observation behind its limit check: the messages sent still continue the admission's bundles, and every new flush carries this patient and admission index |
| Transformer.Converter.NextAdmission | src/main/java/de/uzl/itcr/mimic4fhir/concur/FHIRTransformer.java:110-224 | converting one more admission keeps the patient's earlier flushes and adds at least one labelled with the new admission index |
| Transformer.Converter.ConvertAdmissions | src/main/java/de/uzl/itcr/mimic4fhir/concur/FHIRTransformer.java:110-224 | after the admission loop has run over the first `count` admissions, each of them has at least one flush, all of this patient |
| Mimic4Fhir.NumberOfAllPatients | src/main/java/de/uzl/itcr/mimic4fhir/Mimic4Fhir.java:169-174 | a topPatients of 0 means every patient in the database, otherwise exactly topPatients patients |
| Mimic4Fhir.Deliveries | src/main/java/de/uzl/itcr/mimic4fhir/concur/FHIRTransformer.java:214-220 | one JSON message per sent bundle, in order, carrying its label and its serialized bundle |
| Mimic4Fhir.Reached | src/main/java/de/uzl/itcr/mimic4fhir/Mimic4Fhir.java:203-207 | the patients the loop got to: one more than those converted when it stopped on a failing patient |
| Mimic4Fhir.CoveredStep | src/main/java/de/uzl/itcr/mimic4fhir/Mimic4Fhir.java:203-207 | one more converted patient keeps every earlier admission covered and covers the new patient's admissions sent before its failure |
| Mimic4Fhir.CompletedAreCovered | src/main/java/de/uzl/itcr/mimic4fhir/Mimic4Fhir.java:203-207 | every admission of every patient whose conversion completed has a bundle |
| Mimic4Fhir.Start | src/main/java/de/uzl/itcr/mimic4fhir/Mimic4Fhir.java:153-220 | the loop stops at the first patient whose conversion throws, or at a patient index past the fetched ids; the patients before it all complete; the run sends one message per flush, pairwise differently labelled, none labelled "0", and the END message last exactly when every patient was converted; every admission of every converted patient has a bundle |
| Mimic4Fhir.StartStep | src/main/java/de/uzl/itcr/mimic4fhir/Mimic4Fhir.java:203-207 | one pass of the loop: an index past the fetched ids, or a conversion that throws, aborts it; otherwise the next patient is converted and covered |
| Mimic4Fhir.CompletedRowsAreTasks | src/main/java/de/uzl/itcr/mimic4fhir/concur/TimeMeasurements.java:38-40 | the timing rows of a threaded run are numbered consecutively, each records one completed task with its subject id, admission count and duration, in task order |
| Mimic4Fhir.AllTasksTimed | src/main/java/de/uzl/itcr/mimic4fhir/concur/ConversionThread.java:68-80 | when no task fails, the k-th timing row belongs to the k-th task |
| Mimic4Fhir.ConversionThread | src/main/java/de/uzl/itcr/mimic4fhir/concur/ConversionThread.java:68-80 | a task converts its patient with a fresh converter, so its labels are its own patient's; it appends one timing row with job number index + 1 if and only if the conversion completes, and none if it throws |
| Mimic4Fhir.ThreadStep | src/main/java/de/uzl/itcr/mimic4fhir/Mimic4Fhir.java:133-136 | one submitted task adds its own differently labelled messages and covers its patient's admissions sent before any failure |
| Mimic4Fhir.StartWithThread | src/main/java/de/uzl/itcr/mimic4fhir/Mimic4Fhir.java:116-145 | the threaded run (taken task by task) submits topPatients tasks, stopping at the end of the fetched ids; it sends only data messages, pairwise differently labelled, covers every admission each task sent and records exactly the rows of the jobs that completed; no END message is sent |
| Mimic4Fhir.SequentialQueueWritesEachBundle | src/main/java/de/uzl/itcr/mimic4fhir/Mimic4Fhir.java:203-212 | consumed in file mode, the sequential run's queue is closed by its last message; every earlier bundle whose write succeeds ends up in its own file, and no file exists for one that failed |
| Dedup.RememberKeepsOld | src/main/java/de/uzl/itcr/mimic4fhir/concur/FHIRTransformer.java:162-173 | an id already stored under a key is never replaced: the first sighting wins |
| Dedup.RememberCoversVisited | src/main/java/de/uzl/itcr/mimic4fhir/concur/FHIRTransformer.java:321-331 | after the loop every visited key is in the memory map |
| Dedup.SightingsStored | src/main/java/de/uzl/itcr/mimic4fhir/concur/FHIRTransformer.java:162-173 | each item added to the bundle had a key absent before the loop, and its own id is what is stored under that key |
| Dedup.SightingsDistinct | src/main/java/de/uzl/itcr/mimic4fhir/concur/FHIRTransformer.java:321-331 | no key is added to the bundle twice |
| Dedup.RememberOnlySightings | src/main/java/de/uzl/itcr/mimic4fhir/concur/FHIRTransformer.java:354-378 | the memory gains no key other than those of the items added to the bundle |
| Dedup.VisitOneMore | src/main/java/de/uzl/itcr/mimic4fhir/concur/FHIRTransformer.java:162-173 | visiting one more item adds it (and its key) exactly when its key is not yet in the memory |

## Left out

- JDBC, SQL and the database views: `ConnectDB` takes the rows of each query as a sequence of records. Only the row folding, the transfer numbering, the field assignments and the null filters are modelled.
- RabbitMQ: the queue is the sequence of messages sent, and the consumer runs over that sequence. Channel and connection objects are reduced to an open/closed state.
- HTTP and JSON: the RxNorm, ICD-9 mapping and procedure SNOMED services are functions passed as parameters. Parsing their JSON replies is not modelled.
- HAPI FHIR: resources are datatypes holding only the fields the code sets. XML encoding is a function passed as a parameter. Validation with the instance validator and all logging are not modelled.
- Mimic4Fhir.StartWithThread: the thread pool and the `synchronized` accessors are not modelled. The conversion jobs (each one `Mimic4Fhir.ConversionThread`) run one after the other in submission order, so the model does not capture how messages of different tasks interleave on the queue.
- `double` values and `Double.parseDouble`: numbers are `real`, and `Double.parseDouble` is a function passed as a parameter that answers None where it throws. Its decimal syntax is not modelled.
- `IdDt.newRandomUuid` and `StopWatch`: fresh ids and task durations are inputs. A transfer Encounter is built again each time the basic part of a bundle is built, so its id is an input that depends on the patient, the bundle number and the transfer (`Transformer.EncounterIds`).
- Receiver.Perform: the outputs record the received bundle text, not the parsed bundle encoded again as XML or for the server. Parsing and encoding again is taken as the identity on bundles.
- Dates are integers.
- A Medication without codes has a null first code, which Java prints as "null" in its condition "code=null". `Transformer.Prescription` holds the code as a string, and the caller passes "null" for that case.
- `TimeMeasurements.writeToFile`, `ICD9MapperLookup.printMissingMappings` and the `ConnectDB` print helpers write files or print to the console.
- `Helper.CleanInvalidXmlChars` and the XML cleaning in `MNoteevent.setText` are not modelled, because their regular expression cannot be stated faithfully. The note text is taken as already cleaned.
- The `NoMatchError` class is not part of this model. A missing mapping is a `None` result.
- A null admission type makes the class `switch` in `createAdmission` throw. That path is not modelled: the model takes the admission type as a non-null string.
- `ConnectDB.getPatientBySubjectId` also loads procedures and prescriptions per admission. Those are separate queries that the model takes as inputs, so they are not folded from rows.
- The KDS route codings and the KDS dosage of `PrescriptionManager.createAdministration` are built but never attached to the resource. They are modelled as values (`KdsRouteCodings`, `KdsDose`) and proved about, but they are not part of the resulting administration.
- In `Mimic4Fhir.java` the note-event loop (and with it the caregiver performer lookup) is commented out, since MIMIC-IV has no note events. `Transformer.Converter.ProcessCaregiver` models `processCaregiver` itself, but no loop calls it.
- CLI, configuration, the demo entry points, `RemoteInformationLookup` and the abstract `ModelManager` are plumbing with no behaviour of their own.
- The `FHIRComm` constructor and its server calls are network I/O. Only the file-name rule of `printBundleAsXmlToFile` is modelled.
- Mimic4Fhir.Start: it states the labels, their uniqueness, the END message, where the loop stops and that every admission of a converted patient is covered. It does not restate each bundle's contents, which `Transformer.Converter.ProcessAdmission` states for one admission.
- Transformer.Converter.ConvertPatient: it states whether the conversion completes, the order and labels of the patient's flushes and the content of the imaging bundle. Each admission's bundle contents are stated by `ProcessAdmission`, not lifted to the patient.
- Exceptions during a conversion are injected as a `Failure` per patient: the patient fails before anything is sent (loading, the Patient resource, a DiagnosticReport), or admission k fails before it touches the bundle, because every resource of an admission is built first. An exception thrown inside `createBasicBundle` or while a full bundle is replayed after a flush is not modelled.
- The ICD code and version of a diagnosis are non-null strings in the model. Under KDS, `DiagnoseManager.createResource` throws on a null one; that exception is covered only as an injected `Failure`.
- Receiver: a delivery can fail in three ways: its bundle does not parse, the file write fails, or the push fails. A JSON message without a "number" or "bundle" field, and failures of `basicCancel` or `close`, are not modelled.

## Findings

| source | as written | input that shows it | evidently intended | confidence | as-written member | corrected member |
|---|---|---|---|---|---|---|
| src/main/java/de/uzl/itcr/mimic4fhir/model/manager/AdmissionManager.java:65-78 | the cases "SURGICAL SAME DAY ADMISSION" and "OBSERVATION ADMIT" have no `break`, so they fall through to the "normalstationaer" class | admission type "OBSERVATION ADMIT" | class "operation" and "ub" respectively | not executed | AdmissionManager.ClassFallsThrough | AdmissionManager.ClassTable |
| src/main/java/de/uzl/itcr/mimic4fhir/model/manager/AdmissionManager.java:74 | the case label is spelled "ELECTIVCE", so "ELECTIVE" admissions reach the default class | admission type "ELECTIVE" | class "normalstationaer" | not executed | AdmissionManager.ElectiveIsUnmatched | AdmissionManager.ClassTable |
| src/main/java/de/uzl/itcr/mimic4fhir/work/ConnectDB.java:564-569 | `setIcdCode` is called a second time with the admission id, overwriting the ICD code | any diagnosis row, for example ICD code "4019" in admission "20000001" | the ICD code is kept and the admission id is set as the encounter id | not executed | ConnectDB.AsWrittenIdentifierIgnoresAdmission | ConnectDB.ConditionIdentifierNamesAdmission |
| src/main/java/de/uzl/itcr/mimic4fhir/work/ConnectDB.java:944-996 | an admission is added only when the next row starts another one, so the last admission is never added | a patient whose rows all belong to one admission | every admission, the last one included | not executed | ConnectDB.SingleAdmissionIsDropped | ConnectDB.GetPatientBySubjectId |
| src/main/java/de/uzl/itcr/mimic4fhir/model/MChartevent.java:178-186 | the "PAR-Oxygen saturation" case has no `break`, so it falls through to the body-temperature code | label "PAR-Oxygen saturation" | LOINC 2708-6 (Oxygen Saturation) | not executed | MChartevent.OxygenFallsThrough | MChartevent.OxygenCoded |
| src/main/java/de/uzl/itcr/mimic4fhir/model/manager/PrescriptionManager.java:221-227 | `addAll` of the lookup's null answer for a GSN code without RxNorm concept throws and aborts the conversion | GSN "1 2" where only "1" has a concept | the codes without concepts are skipped | not executed | PrescriptionManager.GsnWithoutConceptAborts | PrescriptionManager.GsnConcepts |
| src/main/java/de/uzl/itcr/mimic4fhir/work/ConnectDB.java:491 | the flag is compared with `==`, which compares references, so a flag read from the database is never "abnormal" | a lab row with flag "abnormal" | `equals`, marking the event abnormal | not executed; holds whenever the driver returns a new String object | ConnectDB.AbnormalFlagLost | ConnectDB.GetLabEvents |
