# CorpusTools corpus readers in Dafny

This project models the annotation-alignment core of CorpusTools' corpus
readers. Each reader turns a parsed transcript into discourse data:

- levels of leaf units (phones or transcription symbols), called base levels;
- levels of words, each word holding a half-open range `[L, L+k)` into every
  base level, where `L` is the length of that level just before the word's
  units are appended.

Three readers feed this structure, each with the schema inference in front of it:

- **TextGrid** (`textgrid.dfy`, module `TextGrid`). It checks that a word tier and
  a phone tier exist and guesses the role of each interval tier. It builds the
  annotation schema from one or more TextGrids. For each interval of a spelling
  tier it collects the overlapping phone intervals, clipped to the word, and
  reads one attribute value per free tier.
- **Paired word/phone files** (`multiple_files.dfy`, module `MultipleFiles`). This
  covers the Buckeye and TIMIT dialects. It reads Buckeye word and phone records
  with begin times chained from the previous end. It merges the word list with
  a phone queue that is consumed from its front.
- **Interlinear gloss text** (`text_ilg.dfy`, module `TextIlg`). It infers the
  block size from the token counts of the lines and builds the schema. It reads
  the file block by block: the anchor line's i-th token becomes a word, and the
  i-th token of every other line is that word's value. On export it writes
  words back in blocks.

Shared pieces:

- `discourse.dfy` (module `Discourse`) holds the schema entries and the
  accumulator class `DiscourseData`. The class has `LevelLength` and an
  append-only `AddAnnotations`. It also holds the invariant every reader
  maintains: word ranges into each level are in bounds, contiguous and ordered,
  and together they tile the level.
- `text.dfy` (module `Text`) holds the Python string operations the readers use:
  substring `in`, `lower`, `strip`, `split` and `join`.
- `options.dfy` (module `Options`) holds `Option` and `Result`.

Each reader's loop is a method proved against a plan function. The plan lists
the words the input yields, in order, or the first error. The method's
postcondition says three things:

- it fails exactly when the plan does, with the same error;
- every added word realises its planned word (same level, label, ranges of the
  planned lengths, and attributes);
- every base level equals the concatenation of the units planned for it.

The properties of the plans are proved as separate lemmas.

## Model

| member | source | states |
|---|---|---|
| Text.ContainsIff | corpustools/corpus/io/textgrid.py:28 | Python's substring test `a in b` holds exactly when `a` occurs at some position of `b` |
| Text.Lower | corpustools/corpus/io/textgrid.py:28 | lower-casing keeps the length and maps each character independently |
| Text.StripEmptyIffBlank | corpustools/corpus/io/text_ilg.py:81 | a stripped line is empty exactly when the line is whitespace only |
| Text.SplitWhitespaceTokens | corpustools/corpus/io/text_ilg.py:81 | `split()` without a delimiter yields non-empty tokens without whitespace, the first starting with the line's first character |
| Text.SplitWhitespaceKeepsText | corpustools/corpus/io/text_ilg.py:81 | the tokens of `split()` concatenate to the line's non-space characters |
| Text.SplitOnJoin | corpustools/corpus/io/multiple_files.py:239-240 | joining the fields of `split(d)` with `d` gives back the string |
| Text.SplitOnFields | corpustools/corpus/io/multiple_files.py:239-240 | no field of `split(d)` contains `d` |
| Text.SplitOnAbsent | corpustools/corpus/io/text_ilg.py:81 | splitting on a character that does not occur gives the whole string as one field |
| Text.JoinSplitOn | corpustools/corpus/io/text_ilg.py:165 | splitting a join of `d`-free parts on `d` gives back the parts |
| Text.NatToString | corpustools/corpus/io/text_ilg.py:57 | a line number is written as the decimal digits that spell it, with no leading zero, as `str(i)` writes it |
| Text.DelimiterIn | corpustools/corpus/io/text_ilg.py:61-64 | the delimiter taken from a label is the first candidate, in candidate order, that occurs in it; none exactly when no candidate occurs |
| Text.FirstDelimiterChosen | corpustools/corpus/io/textgrid.py:127-133 | the delimiter comes from the first label holding any candidate; none exactly when no label holds a candidate |
| Text.FindDelimiter | corpustools/corpus/io/textgrid.py:126-133 | the nested label/candidate loop with its two breaks finds that first delimiter |
| Discourse.NewType | corpustools/corpus/io/multiple_files.py:19-22 | a new schema entry has the given name and flags, and no delimiter, attribute or speaker |
| Discourse.BaseLevelNames | corpustools/corpus/io/textgrid.py:188 | the base levels are exactly the names of the schema entries marked base |
| Discourse.WordLevelNames | corpustools/corpus/io/textgrid.py:182 | the word levels are exactly the names of the schema entries marked anchor |
| Discourse.BaseTypes | corpustools/corpus/io/textgrid.py:188 | the base entries of a schema are exactly its entries marked base |
| Discourse.WordTypes | corpustools/corpus/io/textgrid.py:182 | the word entries of a schema are exactly its entries marked anchor |
| Discourse.Extend | corpustools/corpus/io/textgrid.py:251 | appending a batch of units changes no level names |
| Discourse.FrontierAppend | corpustools/corpus/io/textgrid.py:220-224 | after a word is added, a level's used length is the end of that word's range into it, if it has one |
| Discourse.ProjectAppend | corpustools/corpus/io/textgrid.py:250-251 | adding a word to a level appends it to that level's words and leaves the other levels' words unchanged |
| Discourse.AddKeepsConsistent | corpustools/corpus/io/textgrid.py:220-224 | a word whose ranges start at the current level lengths and span its units keeps ranges tiling the levels and word levels matching the log |
| Discourse.FrontierMonotone | corpustools/corpus/io/text_ilg.py:128-129 | the used length of a level never shrinks as words are added |
| Discourse.FrontierAfter | corpustools/corpus/io/text_ilg.py:128-129 | right after a word, the used length of each of its levels is where its range ends |
| Discourse.RangesInBounds | corpustools/corpus/io/textgrid.py:220-224 | every word's range into a level is a well-formed interval inside that level |
| Discourse.RangesOrdered | corpustools/corpus/io/multiple_files.py:72-73 | a later word's range into a level starts no earlier than any earlier word's range ends: ranges do not overlap |
| Discourse.RangesContiguous | corpustools/corpus/io/multiple_files.py:98-101 | consecutive words' ranges into a level are contiguous |
| Discourse.ExtendKeepsRealized | corpustools/corpus/io/textgrid.py:251 | appending units never disturbs the units an earlier word refers to |
| Discourse.BuiltIsRealized | corpustools/corpus/io/textgrid.py:220-224 | a word built from a plan with ranges from the current lengths refers, after the append, to exactly the planned units |
| Discourse.AddKeepsRealizes | corpustools/corpus/io/textgrid.py:250-251 | adding a correctly built word keeps every added word realising its plan |
| Discourse.PrefixGathered | corpustools/corpus/io/text_ilg.py:139-140 | after the first m words, each level begins with the concatenation of the units planned for those words |
| Discourse.GatherStep | corpustools/corpus/io/text_ilg.py:139-140 | one word more extends that prefix by the word's planned units |
| Discourse.LevelIsGathered | corpustools/corpus/io/text_ilg.py:139-140 | each base level is exactly the concatenation, in word order, of the units planned for it |
| Discourse.DiscourseData.constructor | corpustools/corpus/io/textgrid.py:181 | new discourse data has one empty level per base entry and per anchor entry, and no words |
| Discourse.DiscourseData.LevelLength | corpustools/corpus/io/textgrid.py:220 | the length of a base level as it stands |
| Discourse.DiscourseData.AddAnnotations | corpustools/corpus/io/textgrid.py:251 | appends each level's units and the word, keeps the tiling invariant, and logs the word |
| TextGrid.IsWordTier | corpustools/corpus/io/textgrid.py:27-30 | a tier is a word tier exactly when the lower-cased word name occurs in the lower-cased tier name |
| TextGrid.IsPhoneTier | corpustools/corpus/io/textgrid.py:32-35 | a tier is a phone tier exactly when the lower-cased phone name occurs in the lower-cased tier name |
| TextGrid.DefaultName | corpustools/corpus/io/textgrid.py:52-55 | a missing or empty tier name becomes the default; any other is kept |
| TextGrid.FigureOutTiers | corpustools/corpus/io/textgrid.py:51-66 | a word-tier error exactly when no tier matches the word name; a phone-tier error exactly when one does but none matches the phone name; success exactly when both match |
| TextGrid.Names | corpustools/corpus/io/textgrid.py:154 | the tier names, one per interval tier, in tier order |
| TextGrid.DistinctInOrder | corpustools/corpus/io/textgrid.py:165 | the keys of the property table: the same names without repeats |
| TextGrid.TierTable | corpustools/corpus/io/textgrid.py:153-155 | the property table has exactly the tier names as keys |
| TextGrid.TierTableLast | corpustools/corpus/io/textgrid.py:154-155 | a repeated tier name keeps the properties of its last tier |
| TextGrid.MaxMeanKey | corpustools/corpus/io/textgrid.py:157 | the tier picked by `max` has the largest mean label length, and it is the first such key |
| TextGrid.MinPositionKey | corpustools/corpus/io/textgrid.py:161-162 | the tier picked by `min` has the smallest position |
| TextGrid.WithProps | corpustools/corpus/io/textgrid.py:158 | the keys whose properties equal the maximum's, and only those |
| TextGrid.Without | corpustools/corpus/io/textgrid.py:165-170 | the attribute tiers: the keys in neither the segment nor the spelling list |
| TextGrid.GuessTiersAsWritten | corpustools/corpus/io/textgrid.py:149-172 | as written, fails only on no tiers, and the spelling tier is the smallest-position tier overall, segment tier included |
| TextGrid.LikelySegmentUnique | corpustools/corpus/io/textgrid.py:157-160 | the likely segment list is the single tier picked by `max` |
| TextGrid.WithPropsSingle | corpustools/corpus/io/textgrid.py:158-159 | among distinct keys, one key with the maximal properties makes the likely segment list a singleton |
| TextGrid.GuessTiersIntendedFails | corpustools/corpus/io/textgrid.py:157-163 | the corrected guess fails exactly on no tiers, or on tiers that all share one name |
| TextGrid.OneNameNoCandidate | corpustools/corpus/io/textgrid.py:161-162 | with one tier name only, no spelling candidate remains |
| TextGrid.TwoNamesGuessed | corpustools/corpus/io/textgrid.py:161-163 | two distinct tier names are enough for the corrected guess to succeed |
| TextGrid.GuessTiersIntendedRoles | corpustools/corpus/io/textgrid.py:157-170 | one spelling tier and one different segment tier; the segment has the largest mean label length; the spelling has the smallest position among the others; every tier has exactly one role |
| TextGrid.TierProperties | corpustools/corpus/io/textgrid.py:153-155 | the loop builds the property table and its keys in first-seen order |
| TextGrid.GuessTiers | corpustools/corpus/io/textgrid.py:149-172 | the guess used by the readers is the corrected guess |
| TextGrid.GuessFromKeys | corpustools/corpus/io/textgrid.py:157-170 | the guess from the property table is the corrected guess |
| TextGrid.AttributeNames | corpustools/corpus/io/textgrid.py:165-170 | the attribute loop keeps the keys that are neither segments nor spellings |
| TextGrid.GuessTiersAsWrittenMisplacesSpelling | corpustools/corpus/io/textgrid.py:159-163 | with tiers "phones" (mean 3.0) then "words" (mean 1.0), the code as written picks "phones" as spelling, and the corrected guess picks "words" |
| TextGrid.ExampleKeys | corpustools/corpus/io/textgrid.py:165 | the keys of that example are "phones", "words" |
| TextGrid.ExampleTable | corpustools/corpus/io/textgrid.py:154-155 | the property table of that example |
| TextGrid.TypeForTier | corpustools/corpus/io/textgrid.py:116-133 | a spelling tier becomes the anchor and a segment tier a base level; any other becomes an attribute, and a transcription attribute gets the first delimiter in its labels |
| TextGrid.TypesFor | corpustools/corpus/io/textgrid.py:116-135 | one schema entry per interval tier, in tier order |
| TextGrid.Guesses | corpustools/corpus/io/textgrid.py:104-106 | one role guess per TextGrid |
| TextGrid.InspectFromLater | corpustools/corpus/io/textgrid.py:136-140 | once a schema exists, later TextGrids leave it unchanged and are accepted exactly when guessable and with as many tiers |
| TextGrid.InspectOutcome | corpustools/corpus/io/textgrid.py:104-142 | the schema succeeds exactly when every TextGrid is guessable and has the first one's tier count, and it is the first TextGrid's per-tier entries |
| TextGrid.GuessedHasTiers | corpustools/corpus/io/textgrid.py:106 | a guessable TextGrid has at least one interval tier |
| TextGrid.InspectDiscourseTextGrid | corpustools/corpus/io/textgrid.py:92-142 | the loop over TextGrids computes that schema or the first error |
| TextGrid.InspectStep | corpustools/corpus/io/textgrid.py:105-140 | one TextGrid of that loop: the guess, then the schema or the tier-count check |
| TextGrid.BuildTypes | corpustools/corpus/io/textgrid.py:116-135 | the per-tier loop builds one entry per tier, in order |
| TextGrid.BuildTierType | corpustools/corpus/io/textgrid.py:117-133 | one tier's entry, with the delimiter scan |
| TextGrid.Clip | corpustools/corpus/io/textgrid.py:202-208 | the clipped begin is the later of the two starts and the clipped end the earlier of the two ends; the label is kept |
| TextGrid.Stamp | corpustools/corpus/io/textgrid.py:214-217 | one unit per parsed symbol |
| TextGrid.CollectedWithinWord | corpustools/corpus/io/textgrid.py:194-208 | every collected interval lies within the word and is the clip of a tier interval overlapping it; clips of well-formed intervals are well-formed |
| TextGrid.CollectedIsOverlapping | corpustools/corpus/io/textgrid.py:194-198 | on a tier sorted by start, skipping and stopping early collects exactly the clips of all overlapping intervals, in order |
| TextGrid.NoneOverlapAfter | corpustools/corpus/io/textgrid.py:197-198 | nothing starting at or after the word's end overlaps it |
| TextGrid.ExpandAllAppend | corpustools/corpus/io/textgrid.py:217-219 | the units of concatenated intervals are the concatenated units |
| TextGrid.TierElementsWithinWord | corpustools/corpus/io/textgrid.py:202-219 | every unit a tier gives a word carries begin and end times within the word |
| TextGrid.ExpandAllWithin | corpustools/corpus/io/textgrid.py:209-219 | units from intervals inside the word have times inside the word |
| TextGrid.ClippedUnits | corpustools/corpus/io/textgrid.py:202-219 | one interval's units: the clip's label, or its parsed symbols with the clipped begin on the first and end on the last, none when the parse is empty |
| TextGrid.CollectedStep | corpustools/corpus/io/textgrid.py:194-198 | one step of the scan: skip, stop, or collect the clip |
| TextGrid.ExpandAllSnoc | corpustools/corpus/io/textgrid.py:217-219 | one collected interval more appends its units |
| TextGrid.CollectTierElements | corpustools/corpus/io/textgrid.py:193-219 | the scan loop yields the units of the collected clips, in tier order |
| TextGrid.GetFirst | corpustools/corpus/io/textgrid.py:183 | a found tier has the name asked for; none exactly when no tier has it |
| TextGrid.IntervalContaining | corpustools/corpus/io/textgrid.py:233 | a found interval holds the time in its closed span; none exactly when none does |
| TextGrid.LookupPointAsWritten | corpustools/corpus/io/textgrid.py:226 | the lookup point as written is the word's end time |
| TextGrid.MidPoint | corpustools/corpus/io/textgrid.py:226 | the midpoint is as far from the word's start as from its end, and strictly inside a well-formed word |
| TextGrid.LookupPointPicksEndInterval | corpustools/corpus/io/textgrid.py:226 | for word [0, 3] over attribute intervals [0, 2] and [2, 3], the code as written reads the second and the midpoint reads the first |
| TextGrid.WithoutIgnored | corpustools/corpus/io/textgrid.py:243-244 | the kept characters are exactly those of the label not in the ignored set |
| TextGrid.BaseUnitsWithinWord | corpustools/corpus/io/textgrid.py:188-224 | every base unit planned for a word lies within its interval, and only base levels of the schema get units |
| TextGrid.AttributesPlaced | corpustools/corpus/io/textgrid.py:227-248 | each attribute (not base, not anchor) gets a value among the token values when it is a token type and among the additional ones otherwise, and nothing else is added |
| TextGrid.AttributeValuesRead | corpustools/corpus/io/textgrid.py:227-248 | each value stored for an attribute is the label value of the first interval holding the lookup point, in the first tier named after an attribute type of that name and kind |
| TextGrid.PlanWordShape | corpustools/corpus/io/textgrid.py:185-248 | a planned word belongs to its level, keeps the interval's label, has units within the interval, has every attribute in the right place, and each attribute value is the one read at the word's midpoint |
| TextGrid.BuildWord | corpustools/corpus/io/textgrid.py:186-248 | builds the planned word, with ranges starting at the current level lengths, or fails as the plan does |
| TextGrid.AddTierWords | corpustools/corpus/io/textgrid.py:185-251 | adds one word per spelling interval, each realising its plan |
| TextGrid.TextGridToData | corpustools/corpus/io/textgrid.py:174-252 | fails exactly as the plan does; otherwise holds exactly the planned words, with each base level the concatenation of their units |
| MultipleFiles.UnitsOf | corpustools/corpus/io/multiple_files.py:74 | one timed unit per phone, in order |
| MultipleFiles.SymbolUnits | corpustools/corpus/io/multiple_files.py:97 | one untimed unit per expected symbol, in order |
| MultipleFiles.InspectDiscourseMultipleFiles | corpustools/corpus/io/multiple_files.py:17-29 | four entries for Buckeye and two for TIMIT, each with "spelling" as the only anchor, heading the list; any other dialect is an error |
| MultipleFiles.PhoneMatch | corpustools/corpus/io/multiple_files.py:12-15 | a found label matches exactly when it equals the expected one or occurs inside it |
| MultipleFiles.EmptyMatchesAll | corpustools/corpus/io/multiple_files.py:12-15 | the empty label matches every expected label |
| MultipleFiles.PhoneMatchAsymmetric | corpustools/corpus/io/multiple_files.py:12-15 | matching is not symmetric: "a" matches "ab" but not the other way round |
| MultipleFiles.LabelEnd | corpustools/corpus/io/multiple_files.py:200 | the label ends at the leftmost separator match (an optional space, then ';' or '+'), or at the end |
| MultipleFiles.ReadBuckeyePhones | corpustools/corpus/io/multiple_files.py:203-209 | one phone per line with that line's label and end; the first begins at 0 and each later one where the previous ended |
| MultipleFiles.ParseWordLine | corpustools/corpus/io/multiple_files.py:236-247 | a non-speech word has no forms; a speech word's forms split its fields on spaces and join back to them; fillers get category "UH"; an empty word or missing fields is an error |
| MultipleFiles.ReadBuckeyeWords | corpustools/corpus/io/multiple_files.py:229-252 | one record per line, with begins chained from 0; fails exactly when some line cannot be parsed, with the first such line's error |
| MultipleFiles.Kept | corpustools/corpus/io/multiple_files.py:66-67 | the kept phones are phones of the queue that do not start before the word |
| MultipleFiles.PrependAssoc | corpustools/corpus/io/multiple_files.py:68 | collecting phones one by one composes |
| MultipleFiles.TimitTakeFails | corpustools/corpus/io/multiple_files.py:64-65 | the TIMIT take fails exactly when no phone in the queue starts within the word and ends with it |
| MultipleFiles.KeptCons | corpustools/corpus/io/multiple_files.py:66-68 | keeping phones of a longer prefix adds the first phone when it does not start early |
| MultipleFiles.TimitTakeStops | corpustools/corpus/io/multiple_files.py:62-70 | a TIMIT take stops at the first closing phone; it keeps that phone and the earlier phones not starting before the word, and leaves the rest of the queue |
| MultipleFiles.StopsLater | corpustools/corpus/io/multiple_files.py:64-70 | a take that passes over the first phone stops one position later than the take after it |
| MultipleFiles.TakeTimit | corpustools/corpus/io/multiple_files.py:62-70 | the pop loop computes the TIMIT take |
| MultipleFiles.TimitTakePlanned | corpustools/corpus/io/multiple_files.py:62-74 | a TIMIT word's phones are non-empty, start no earlier than the word, and the last ends with it |
| MultipleFiles.TimitPlanFromShape | corpustools/corpus/io/multiple_files.py:49-74 | the rest of a successful TIMIT merge plans each remaining word in this way |
| MultipleFiles.TimitPlanShape | corpustools/corpus/io/multiple_files.py:49-74 | a successful TIMIT merge plans every word, in order, each closed by its last phone |
| MultipleFiles.TimitFirstWordFails | corpustools/corpus/io/multiple_files.py:64-65 | when no phone closes the first word, the merge fails on it |
| MultipleFiles.BuildTimitWord | corpustools/corpus/io/multiple_files.py:61-74 | a TIMIT word's "transcription" range is `[L, L+|found|)` over its popped phones, and the queue is left after them |
| MultipleFiles.TimitToData | corpustools/corpus/io/multiple_files.py:43-123 | fails exactly as the TIMIT plan does; otherwise holds exactly the planned words, with "transcription" the concatenation of their phones |
| MultipleFiles.SubseqConcat | corpustools/corpus/io/multiple_files.py:85-95 | phones kept in order from two stretches of the queue stay in order across both |
| MultipleFiles.SubseqUnits | corpustools/corpus/io/multiple_files.py:96-102 | phones in queue order give their units in the same order |
| MultipleFiles.BuckeyeTakeShape | corpustools/corpus/io/multiple_files.py:85-95 | one accepted phone per expected symbol, each matching it and overlapping the word, taken from the queue; the rest is a suffix of the queue; failing means popping an empty queue or emptying it before the last word |
| MultipleFiles.BuckeyeTakeOrder | corpustools/corpus/io/multiple_files.py:85-95 | the accepted phones are distinct phones of the popped prefix, in pop order; the last phone popped is the last accepted; before the last word the queue is never left empty |
| MultipleFiles.BuckeyeTakeOrderStep | corpustools/corpus/io/multiple_files.py:87-90 | one pop, kept or dropped, keeps the accepted phones a subsequence of the popped prefix |
| MultipleFiles.BuckeyeTakeSpec | corpustools/corpus/io/multiple_files.py:85-95 | one accepted phone per expected symbol, each matching it and overlapping the word; they are distinct phones of the popped prefix in pop order, the last of them popped last; the rest is the queue after that prefix, non-empty before the last word; failing means popping an empty queue or emptying it before the last word |
| MultipleFiles.EmbedsTail | corpustools/corpus/io/multiple_files.py:85-90 | a matching of all expected symbols gives one of all but the first |
| MultipleFiles.BuckeyeTakeSucceeds | corpustools/corpus/io/multiple_files.py:85-95 | the pop loop succeeds exactly when the remaining symbols can be matched in order to distinct phones it may pop (all but the queue's last before the last word); otherwise it fails |
| MultipleFiles.TakeBuckeye | corpustools/corpus/io/multiple_files.py:85-95 | the pop loop computes the Buckeye take |
| MultipleFiles.BuckeyeWordShape | corpustools/corpus/io/multiple_files.py:76-102 | a non-speech word gets empty ranges and pops nothing; a speech word gets its citation symbols, matched phones and category; its surface units are distinct popped phones in pop order, and the rest is the queue after them |
| MultipleFiles.BuckeyeWordSucceeds | corpustools/corpus/io/multiple_files.py:76-102 | a word is planned exactly when it has no forms or its phonetic symbols can be matched in order to phones it may pop |
| MultipleFiles.BuckeyePlanFromPlanned | corpustools/corpus/io/multiple_files.py:49-122 | the rest of a successful Buckeye merge plans each remaining word as the word promises |
| MultipleFiles.SurfaceFollowsStep | corpustools/corpus/io/multiple_files.py:85-102 | a word whose surface units follow the phones it popped keeps the later words' units in queue order |
| MultipleFiles.BuckeyePlanFromOrdered | corpustools/corpus/io/multiple_files.py:49-122 | the remaining words' surface units extend those so far and are a subsequence of the queue's units, in order |
| MultipleFiles.BuckeyePlanFromShape | corpustools/corpus/io/multiple_files.py:49-122 | the rest of a successful Buckeye merge plans each remaining word in this way, and the remaining words consume the queue in order |
| MultipleFiles.BuckeyePlanShape | corpustools/corpus/io/multiple_files.py:49-122 | a successful Buckeye merge plans every word, in order, as the word promises; the surface level is a subsequence, in order, of the phones' units |
| MultipleFiles.NonSpeechNeedsNoPhones | corpustools/corpus/io/multiple_files.py:76-81 | a merge of words without forms never fails, whatever the queue |
| MultipleFiles.BuildBuckeyeWord | corpustools/corpus/io/multiple_files.py:76-120 | builds the planned Buckeye word with ranges starting at the current level lengths, or fails as the plan does |
| MultipleFiles.BuckeyeToData | corpustools/corpus/io/multiple_files.py:43-123 | fails exactly as the Buckeye plan does; otherwise holds exactly the planned words, with each base level the concatenation of their units |
| TextIlg.Stripped | corpustools/corpus/io/text_ilg.py:81 | each line stripped, one per line |
| TextIlg.KeptLineAt | corpustools/corpus/io/text_ilg.py:81 | every kept line is a non-blank line of the text, tokenised from its stripped form |
| TextIlg.KeptLinesOrdered | corpustools/corpus/io/text_ilg.py:80-81 | kept lines keep the text's order: their indices strictly increase |
| TextIlg.KeptLinesComplete | corpustools/corpus/io/text_ilg.py:81 | every non-blank line is kept |
| TextIlg.ReadKeepsOnlyNonBlank | corpustools/corpus/io/text_ilg.py:80-81 | each line read is a non-blank line of the file, under its original 0-based index, with the tokens of its stripped form |
| TextIlg.ReadKeepsEveryNonBlank | corpustools/corpus/io/text_ilg.py:80-81 | every non-blank line of the file is read, under its own index |
| TextIlg.TextToLines | corpustools/corpus/io/text_ilg.py:74-82 | fails exactly when a delimiter is given and does not occur in the text |
| TextIlg.Counts | corpustools/corpus/io/text_ilg.py:14 | the token count of each line |
| TextIlg.RunLengths | corpustools/corpus/io/text_ilg.py:27-35 | the run lengths between count changes are all positive |
| TextIlg.RunLengthsSum | corpustools/corpus/io/text_ilg.py:27-35 | the run lengths add up to the number of lines |
| TextIlg.RunLengthsSingle | corpustools/corpus/io/text_ilg.py:21 | all counts equal exactly when there is a single run |
| TextIlg.ModeOf | corpustools/corpus/io/text_ilg.py:36-37 | the pick is a run length that is at least as frequent as any other, with ties going to the larger |
| TextIlg.LargestAtMost | corpustools/corpus/io/text_ilg.py:38-42 | the largest run length at most 10; none exactly when all exceed 10 |
| TextIlg.LargestNotIn | corpustools/corpus/io/text_ilg.py:42 | the largest run length not yet rejected; none exactly when all are rejected |
| TextIlg.DivisorBelow | corpustools/corpus/io/text_ilg.py:23-25 | the largest i in 2..5 dividing the line count; none exactly when none does |
| TextIlg.LinesPerGlossBounds | corpustools/corpus/io/text_ilg.py:13-43 | the block size is 1..10; with equal counts it is in 2..5 and divides the line count; otherwise it is one of the run lengths |
| TextIlg.NoDivisorIff | corpustools/corpus/io/text_ilg.py:21-25 | with equal counts, inference fails exactly when no i in 2..5 divides the line count |
| TextIlg.Equaled | corpustools/corpus/io/text_ilg.py:15-20 | the first flag is false, and each later flag says whether the count equals the previous one |
| TextIlg.RunLengthsSnoc | corpustools/corpus/io/text_ilg.py:29-34 | one line more extends the last run or starts a run of 1 |
| TextIlg.IntervalsStep | corpustools/corpus/io/text_ilg.py:29-35 | one step of the interval loop keeps the open run's length in step |
| TextIlg.FalseIntervals | corpustools/corpus/io/text_ilg.py:27-35 | the interval loop computes the run lengths |
| TextIlg.RejectShrinks | corpustools/corpus/io/text_ilg.py:40-42 | each rejection shrinks the candidates, so the loop ends |
| TextIlg.RejectedLargest | corpustools/corpus/io/text_ilg.py:40-42 | the loop's result is the largest run length at most 10 |
| TextIlg.RejectedAll | corpustools/corpus/io/text_ilg.py:40-42 | when every run length exceeds 10, there is none |
| TextIlg.Plausible | corpustools/corpus/io/text_ilg.py:36-42 | the pick is the mode when at most 10; otherwise the largest run length at most 10, or an error when there is none |
| TextIlg.EqualedAllEqual | corpustools/corpus/io/text_ilg.py:21 | no false flag after the first exactly when all counts are equal |
| TextIlg.LargestDivisor | corpustools/corpus/io/text_ilg.py:23-25 | the divisor loop gives the largest divisor in 2..5 |
| TextIlg.CalculateLinesPerGloss | corpustools/corpus/io/text_ilg.py:13-43 | the block-size inference of the lines |
| TextIlg.LineType | corpustools/corpus/io/text_ilg.py:55-67 | line i is an attribute "Line i" under "spelling", typed from its labels, with the first delimiter found when it is a transcription |
| TextIlg.BlockTypes | corpustools/corpus/io/text_ilg.py:51-68 | n entries, the first the anchor "spelling"; fails exactly when the file has too few lines for block line n-1 |
| TextIlg.InspectDiscourseIlg | corpustools/corpus/io/text_ilg.py:45-69 | the schema has the given or inferred size and fails when inference fails or the block is longer than the file |
| TextIlg.LetterUnitsAt | corpustools/corpus/io/text_ilg.py:127 | an unparsed base token gives one unit per character |
| TextIlg.SymbolUnitsAt | corpustools/corpus/io/text_ilg.py:127 | a parsed base token gives one unit per symbol |
| TextIlg.ReadCellsAt | corpustools/corpus/io/text_ilg.py:116-119 | each token of a line is read (parsed when the entry is a transcription) in place |
| TextIlg.FindRow | corpustools/corpus/io/text_ilg.py:122 | a found row has the name asked for |
| TextIlg.FindRowNone | corpustools/corpus/io/text_ilg.py:122 | no row exactly when no row has that name |
| TextIlg.PutFinds | corpustools/corpus/io/text_ilg.py:120 | storing a row under its name replaces that name's row and leaves the others |
| TextIlg.PutUniform | corpustools/corpus/io/text_ilg.py:112-120 | storing a row of the agreed length keeps all rows of equal length |
| TextIlg.AgreeStep | corpustools/corpus/io/text_ilg.py:112 | a read line agrees when its count matches the previous one |
| TextIlg.DisagreeStep | corpustools/corpus/io/text_ilg.py:112-114 | a count differing from the previous line is a word mismatch |
| TextIlg.AgreeSkip | corpustools/corpus/io/text_ilg.py:109-110 | lines typed "ignore" are not checked |
| TextIlg.ReadBlockAgrees | corpustools/corpus/io/text_ilg.py:108-120 | reading the rest of a block succeeds exactly when its read lines agree with the last stored count |
| TextIlg.ReadBlockKeepsUniform | corpustools/corpus/io/text_ilg.py:108-120 | the stored rows stay of equal length |
| TextIlg.ReadBlockKeepsNames | corpustools/corpus/io/text_ilg.py:120 | every read entry ends up with a row |
| TextIlg.ReadBlockUniform | corpustools/corpus/io/text_ilg.py:108-120 | a block read has rows of equal length |
| TextIlg.ReadBlockSpec | corpustools/corpus/io/text_ilg.py:108-120 | a block reads exactly when all its non-ignored lines have equal token counts; then every such entry has a row, and all rows have equal length |
| TextIlg.BaseUnitsFound | corpustools/corpus/io/text_ilg.py:126-130 | with a row for every base level, word i gets the units of each base level's i-th cell |
| TextIlg.BaseUnitsMissing | corpustools/corpus/io/text_ilg.py:126-127 | a base level without a row is an error for the first such level |
| TextIlg.ColumnMapSpec | corpustools/corpus/io/text_ilg.py:131-138 | word i's attribute map has exactly the kept rows' names, with each row's i-th value |
| TextIlg.MulAtLeast | corpustools/corpus/io/text_ilg.py:95 | a positive multiple is at least the number |
| TextIlg.ModShift | corpustools/corpus/io/text_ilg.py:95 | removing one block leaves the remainder unchanged |
| TextIlg.WholeBlocksMod | corpustools/corpus/io/text_ilg.py:95-96 | the lines make whole blocks exactly when the block size divides their count |
| TextIlg.PlanBlocksStep | corpustools/corpus/io/text_ilg.py:106-141 | after one block the rest is whole blocks, and the plan continues from there |
| TextIlg.SliceTwice | corpustools/corpus/io/text_ilg.py:121-140 | words planned after a prefix split into the prefix, the block's words and the rest |
| TextIlg.BaseUnitsSucceeds | corpustools/corpus/io/text_ilg.py:126-127 | a word's units are found exactly when every base level has a row; otherwise the error names a base level without one |
| TextIlg.PlanTokenShape | corpustools/corpus/io/text_ilg.py:123-139 | word i is planned exactly when every base level has a row, and then has the word level's name, the label of the anchor's value i, each base level's units of value i, and the token and type attributes of value i |
| TextIlg.PlanTokensShape | corpustools/corpus/io/text_ilg.py:122-140 | the anchor's values from i on give one such word each, in order, after those already planned |
| TextIlg.PlanRowShape | corpustools/corpus/io/text_ilg.py:122-140 | a word level's row gives one such word per value, in order; it fails only for a base level without a row |
| TextIlg.PlanLevelsShape | corpustools/corpus/io/text_ilg.py:121-140 | the word levels give their rows' words level after level, in schema order; they are planned when every word and base level has a row, and a failure names one that has none |
| TextIlg.NamedLevelHasRow | corpustools/corpus/io/text_ilg.py:109-122 | in a block read, every word or base level not named "ignore" has a row |
| TextIlg.ReadBlockFails | corpustools/corpus/io/text_ilg.py:112-114 | reading a block fails only with a word mismatch |
| TextIlg.PlanBlockPlanned | corpustools/corpus/io/text_ilg.py:107-140 | a planned block's read lines agree, and its words are its word levels' words in schema order |
| TextIlg.PlanBlockOutcome | corpustools/corpus/io/text_ilg.py:107-140 | a block fails with a word mismatch only when its read lines disagree, and otherwise only for a level named "ignore"; agreeing lines are planned when no level is named "ignore" |
| TextIlg.BlocksPlannedStep | corpustools/corpus/io/text_ilg.py:106-141 | one planned block's words followed by the later blocks' words are the words from that block on |
| TextIlg.BlocksPlannedCons | corpustools/corpus/io/text_ilg.py:106-141 | a block's words followed by the later blocks' words satisfy the block-by-block description |
| TextIlg.PlanBlocksPlanned | corpustools/corpus/io/text_ilg.py:106-141 | the blocks from a line on give their words block after block, and all of them agree |
| TextIlg.PlanBlocksOutcome | corpustools/corpus/io/text_ilg.py:106-141 | a failure over the blocks is a word mismatch of a disagreeing block or a level named "ignore"; agreeing blocks are planned when no level is named "ignore" |
| TextIlg.IlgPlanShape | corpustools/corpus/io/text_ilg.py:95-141 | a successful plan holds, block after block, each word level's words in schema order, one per value of its row in order, each with the level's name, the value's label, each base level's units and the token and type attributes of that value; all blocks agree |
| TextIlg.IlgPlanFails | corpustools/corpus/io/text_ilg.py:95-141 | with whole blocks, a word mismatch means some block's read lines disagree, and any other failure is a level named "ignore"; when no level is, the plan fails exactly when some block disagrees |
| TextIlg.ReadBlock | corpustools/corpus/io/text_ilg.py:107-120 | the block loop succeeds exactly when all non-ignored lines of the block have equal token counts, and then yields rows of equal length; otherwise it reports the word mismatch |
| TextIlg.BaseUnitsStuck | corpustools/corpus/io/text_ilg.py:126-127 | the first base level without a row stops the word |
| TextIlg.BaseUnitsSnoc | corpustools/corpus/io/text_ilg.py:126-130 | one more base level adds its i-th cell's units |
| TextIlg.FitsStep | corpustools/corpus/io/text_ilg.py:128-129 | a range `[L, L+k)` from the current length fits its k units |
| TextIlg.BuildUnits | corpustools/corpus/io/text_ilg.py:126-130 | builds word i's base units, each range starting at the current level length |
| TextIlg.BuildColumns | corpustools/corpus/io/text_ilg.py:131-138 | builds word i's token and type attributes |
| TextIlg.BuildIlgWord | corpustools/corpus/io/text_ilg.py:123-139 | builds the planned word i or fails as the plan does |
| TextIlg.PlanTokensStep | corpustools/corpus/io/text_ilg.py:122 | one word of the anchor row moves the plan on by that word |
| TextIlg.AddIlgWord | corpustools/corpus/io/text_ilg.py:122-140 | adds word i, realising its plan |
| TextIlg.AddLevelWords | corpustools/corpus/io/text_ilg.py:122-140 | adds one word per token of the anchor line, in order |
| TextIlg.AddLevel | corpustools/corpus/io/text_ilg.py:121-140 | adds the words of one word level, or fails when it has no row |
| TextIlg.AddBlockWords | corpustools/corpus/io/text_ilg.py:121-140 | adds the words of every word level of a block |
| TextIlg.AddIlgBlock | corpustools/corpus/io/text_ilg.py:107-140 | reads one block and adds its words, or fails as the plan does |
| TextIlg.AddIlgBlocks | corpustools/corpus/io/text_ilg.py:106-141 | consumes the lines block by block, each exactly once |
| TextIlg.IlgToData | corpustools/corpus/io/text_ilg.py:84-142 | fails exactly as the plan does (delimiter, line-count and word mismatches); otherwise holds exactly the planned words, with each base level the concatenation of their units |
| TextIlg.LinesToData | corpustools/corpus/io/text_ilg.py:95-142 | the same, from lines already read |
| TextIlg.ChunksShape | corpustools/corpus/io/text_ilg.py:161-175 | the blocks give back the words in order; all but the last hold 11 words, the last 1 to 11; no words, no blocks |
| TextIlg.ChunksAppend | corpustools/corpus/io/text_ilg.py:164-170 | a flush after full blocks appends one block |
| TextIlg.ExportLinesAt | corpustools/corpus/io/text_ilg.py:165-168 | output line 2k is block k's spellings joined by spaces, and line 2k+1 its transcriptions |
| TextIlg.ExportSpellingsRoundTrip | corpustools/corpus/io/text_ilg.py:165 | splitting a spelling line on spaces gives back that block's spellings |
| TextIlg.ChunkMember | corpustools/corpus/io/text_ilg.py:161 | every word of a block is a word of the discourse |
| TextIlg.ExportFlush | corpustools/corpus/io/text_ilg.py:164-175 | a flush writes the buffered words as the next block's two lines |
| TextIlg.BufferSnoc | corpustools/corpus/io/text_ilg.py:162-163 | one word more appends its spelling and its joined transcription to the buffers |
| TextIlg.WriteBlock | corpustools/corpus/io/text_ilg.py:165-168 | writing the buffers gives the output for the words so far |
| TextIlg.ExportDiscourseIlg | corpustools/corpus/io/text_ilg.py:157-175 | the output is the two-line rendering of the words in blocks of 11 |

## Left out

- The helper module (`DiscourseData`, `AnnotationType`, `Annotation`, `BaseAnnotation`,
  `parse_transcription`, `compile_digraphs`) is not part of this model.
  - `DiscourseData` is modelled by the class in `discourse.dfy`, after what the readers require of it.
  - `parse_transcription` is a function parameter. The digraph and ignore-list handling lives inside it.
- `Attribute.guess_type` and `Attribute.sanitize_name` are function parameters, and the attribute's display name is not kept.
- The TextGrid classes are not part of this model. A TextGrid arrives parsed into interval tiers, each with its mean label length and distinct labels. Point tiers are not modelled.
- Not modelled (I/O):
  - file reading and writing;
  - directory walking and pairing;
  - the byte-order mark;
  - `float()` conversion and sample-rate division.

  Buckeye records arrive as already-split fields with `real` times. The split of a Buckeye phone line is not modelled; only its label cut is.
- `splitlines()` is modelled as a split on `'\n'`. Lower-casing covers ASCII letters only. Whitespace for `strip()` and `split()` is the set Python's `str.isspace` accepts, ASCII and Unicode.
- TIMIT `read_words` is not modelled: its records are taken as given. TIMIT `read_phones` is left out because it appends an undefined `begin`.
- The Buckeye delimited-attribute branch (multiple_files.py:109-112) is left out. It refers to names that are not defined there.
- `stop_check` and `call_back` are not modelled.
- The speaker heuristics are not modelled: `process_tier_name`, `get_speaker_names`, the speaker split of `figure_out_tiers`, and `textgrids_to_data`. A schema entry carries an optional speaker, which the TextGrid reader compares.
- Not modelled, because they only compose the readers: `load_*`, `align_*`, `data_to_discourse` and `find_wav_path`. Also not modelled: a caller-supplied `annotation_types` for `multiple_files_to_data` (multiple_files.py:31, 43, 103); the readers always build the default schema that `inspect_discourse_multiple_files` returns. Not modelled either: the `add` calls that gather labels into schema entries.
- `data[name]` in the gloss reader is modelled as the schema entry of the row stored under that name.
- TextIlg.CellMark: a word's label from a delimited (parsed) anchor line is its symbols concatenated into one string, whereas text_ilg.py:116-124 stores the parsed list itself as the label. The model's word labels are strings only.
- A Python exception becomes an error value. This covers:
  - `len(lines) % 0` with an empty schema (`NoTypes`);
  - the unbound `number` when no divisor exists (`NoDivisor`);
  - a missing tier, row or interval;
  - `pop(0)` on an empty queue.
- TextGrid.GuessTiersAsWritten: only its spelling choice and failure case are stated. The corrected guess is the one the readers use.
- TextGrid.TextGridToData, TextGrid.BuildWord, TextGrid.AddTierWords: attributes are looked up at the corrected midpoint, not at `si.maxTime` as textgrid.py:226 computes (see Findings). TextGrid.IntervalContaining, the first interval whose closed span holds the time, is an assumed contract for the TextGrid library's `intervalContaining`, which is not part of this model.
- The model follows the code where it differs from the documented behaviour:
  - Export flushes at more than 10 words, so full blocks hold 11 words.
  - Buckeye drops phones that do not match, and fails when the queue empties before the last word.
  - TIMIT fails on an empty queue.
  - `phone_match` is not symmetric.
  - The gloss word-mismatch error reports the previous line as `index - 1`.

## Findings

| source | as written | input that shows it | evidently intended | confidence | as-written member | corrected member |
|---|---|---|---|---|---|---|
| corpustools/corpus/io/textgrid.py:159-163 | `segment_tiers.append(likely_segment)` appends the list itself, so `x not in segment_tiers` never excludes the segment tier from the spelling candidates | tiers "phones" (mean label length 3.0) then "words" (1.0): "phones" becomes both segment and spelling tier | the segment tier is excluded, so the spelling tier is the earliest other tier | not executed | TextGrid.GuessTiersAsWrittenMisplacesSpelling | TextGrid.GuessTiersIntendedRoles |
| corpustools/corpus/io/textgrid.py:226 | `mid_point = si.minTime + (si.maxTime - si.minTime)` equals `si.maxTime` | word [0, 3], attribute intervals [0, 2] and [2, 3]: the value is read from [2, 3], the interval holding the word's end, not from [0, 2], which holds its midpoint | the midpoint `si.minTime + (si.maxTime - si.minTime) / 2` | not executed | TextGrid.LookupPointPicksEndInterval | TextGrid.MidPoint |
