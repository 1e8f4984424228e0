# Spam detector: a Dafny model of its core

The repository trains text classifiers to tell spam SMS/e-mail messages from
legitimate ones ("ham") and serves the chosen one over HTTP. Its own logic
sits on top of scikit-learn and FastAPI. This project models that logic and
proves properties about it:

- **Text normaliser** (`clean_text`, `TextCleaner`, `clean_corpus`). The fixed
  chain of regular-expression substitutions is modelled as left-to-right scans
  over the string: lower-casing, URL removal, e-mail token removal, removal of
  digit runs of three or more, the character filter, whitespace collapsing and
  trimming (module `Preprocessing`, with character classes and `str.strip` /
  `str.split` / `str.lower` in `Text`).
- **Dataset loading** (`load_dataset`, `encode_labels`,
  `get_features_and_labels`). A CSV file is an in-memory table of cells. The
  two accepted column layouts are recognised, and the message and category
  columns are normalised (modules `Table`, `Dataset`).
- **Raw-data cleaning script** (`clean_and_transform`). This is the row
  pipeline: column normalisation, de-duplication on the raw message, dropping
  missing cells, stripping, dropping empty messages and invalid categories,
  and adding the length and word-count columns (module `CleanTransform`, an
  imperative method proved against a one-pass specification).
- **Model factory** (`get_model_pipeline` and its three builders). Pipelines
  are descriptors carrying the configured hyper-parameters (module `Modeling`).
- **Evaluation** (`_compute_auc`, `evaluate_model`). An `Estimator` class
  tracks whether the pipeline is fitted. The metrics record is built from
  exact counts and ratios: accuracy, precision/recall/F1 with
  `zero_division=0`, and the confusion matrix with its label-dependent shape.
  Its JSON form has a decoder (module `Evaluation`).
- **Model comparison script** (`training/compare_models.py`). It trains every
  available model in order and writes the artifacts. The records are ranked by
  F1 with a stable descending sort. The proofs show that the serving defaults
  find the linear SVC artifacts the script wrote (module `CompareModels`).
- **Artifact cache** (`model_loader`). A class holds the model and metrics
  slots over an abstract file store. It has load-if-empty-or-forced
  semantics: a failed load keeps the old slot, and a missing metrics file is
  cached as `{}` (module `ModelLoader`).
- **Serving bookkeeping** (`src/api/main.py`). The handlers are methods of a
  `SpamService` class that holds the usage counters and the cache. Each
  handler is specified by a pure answer function. The model proves that
  `total_predictions == spam_detected + ham_detected` is preserved and that
  the prediction counters stay unchanged on every failure (module `Api`).
- **Request and response schemas** (`src/api/schemas.py`). These are the
  validation predicates of the request bodies, the response records and
  decoders with round-trip lemmas (module `Schemas`; JSON values live in
  `Json`, in `wrappers.dfy`).

The trained classifier is opaque. It is a value that maps a batch of
messages to labels (0/1) and may offer decision values. Both may fail, and a
successful call gives one output per input. scikit-learn's fitting, ROC AUC
and TF-IDF are parameters of the model.

Where the code and its documentation differ, the model follows the code:

- The character class `[^a-z\\s']` keeps `a`–`z`, a literal backslash and the
  apostrophe; whitespace is replaced by a space rather than kept (it is then
  collapsed anyway).
- The digit rule `\b\d{3,}\b` removes a run of three or more digits only when
  neither neighbour is a word character. So "abc123" keeps its digits until
  the character filter turns them into spaces.
- A single request accepts a whitespace-only message (`min_length=1` counts characters).
- `/predict` and `/predict/batch` never load the model. Only startup does, and
  if it fails the slot stays empty until restart.
- A body that fails validation is refused (422) before any handler runs, so
  it does not count as a request.
- In `load_dataset` a missing flag in the ('text','spam') layout yields
  "ham", and a missing Message or Category cell becomes the text "nan".
- The confusion matrix is 1×1 when only one label occurs in the test labels
  and the predictions. For the three factory models this record is never
  produced: each has a score source, and `roc_auc_score` raises on one-class
  test labels before the matrix is computed. Only a pipeline with neither
  decision values nor probabilities would reach it.

## Model

| member | source | states |
|---|---|---|
| Text.LowerChar | src/spam_detector/preprocessing.py:14 | an ASCII capital becomes the letter 32 code points above it; every other character is kept; whitespace stays whitespace |
| Text.Lower | src/spam_detector/preprocessing.py:14 | `str.lower` keeps the length and lower-cases each character in place |
| Text.LowerIdempotent | src/spam_detector/modeling.py:68 | lower-casing twice is lower-casing once |
| Text.LowerOfLower | src/spam_detector/modeling.py:68 | a string without capitals is its own lower-case form |
| Text.TrimStart | src/spam_detector/preprocessing.py:19 | the result is a suffix of the input with no leading whitespace, and everything cut off is whitespace |
| Text.TrimEnd | src/spam_detector/preprocessing.py:19 | the result is a prefix of the input with no trailing whitespace, and everything cut off is whitespace |
| Text.Strip | src/spam_detector/data.py:43-44 | `str.strip` never lengthens and leaves no whitespace at either end |
| Text.StripSlice | src/data/clean_transform.py:82 | the stripped message is a contiguous slice of the input with only whitespace on either side of it |
| Text.StripNoEdgeSpace | src/spam_detector/data.py:43-44 | a string without edge whitespace is unchanged by strip |
| Text.StripIdempotent | src/spam_detector/data.py:43-44 | stripping twice is stripping once |
| Text.Split | src/data/clean_transform.py:100 | `str.split()` yields non-empty words made of non-whitespace characters only |
| Text.SplitOneWord | src/data/clean_transform.py:100 | a single run of non-whitespace characters is one word |
| Text.SplitDropSpaces | src/data/clean_transform.py:100 | leading whitespace does not change the words |
| Text.SplitBeforeSpace | src/data/clean_transform.py:100 | a whitespace character separates words: the words of `a + y` are those of `a` followed by those of `y` when `y` starts with whitespace |
| Text.SplitAtSpace | src/data/clean_transform.py:100 | splitting at a whitespace character splits the word list at the same place |
| Text.SplitCountsWordStarts | src/data/clean_transform.py:100 | the number of words equals the number of positions holding a non-whitespace character at the start or after whitespace |
| Text.WordCount | src/data/clean_transform.py:100 | the word count is the number of word-start positions, so it equals the number of `str.split()` words |
| Text.NatToString | src/spam_detector/data.py:43 | the decimal text of a count is all digits and denotes the count, with a leading zero only for 0 |
| Text.IntToString | src/spam_detector/data.py:43 | the text of an integer is non-empty with no edge whitespace; it starts with "-" iff the integer is negative, and the digits denote the absolute value |
| Preprocessing.FilterChars | src/spam_detector/preprocessing.py:18 | same length; each character is kept if in a–z, backslash or apostrophe, otherwise replaced by a space |
| Preprocessing.CollapseSpaces | src/spam_detector/preprocessing.py:19 | no two adjacent spaces, every whitespace is a plain space, every other character comes from the input, and empty iff the input is |
| Preprocessing.CollapseKeepsWordsAfter | src/spam_detector/preprocessing.py:19 | after any prefix, collapsing whitespace keeps the words of the text |
| Preprocessing.CollapseKeepsWords | src/spam_detector/preprocessing.py:19 | collapsing whitespace keeps every word, in order: `split(collapse(s)) == split(s)` |
| Preprocessing.CleanText | src/spam_detector/preprocessing.py:12-20 | total: every input yields a cleaned string: alphabet a–z, apostrophe, backslash, space; no edge space; no two adjacent spaces |
| Preprocessing.CollapsedAlphabet | src/spam_detector/preprocessing.py:18-19 | collapsing whitespace keeps a string inside the output alphabet |
| Preprocessing.StripShape | src/spam_detector/preprocessing.py:19 | stripping a collapsed string over the output alphabet gives a cleaned string |
| Preprocessing.CleanTextNoDigits | src/spam_detector/preprocessing.py:17-18 | the output never contains a digit |
| Preprocessing.UrlNeedsColonOrDot | src/spam_detector/preprocessing.py:15 | every URL match contains ':' or '.' |
| Preprocessing.StripUrlsNoUrl | src/spam_detector/preprocessing.py:15 | the URL substitution changes nothing in a text without ':' and '.' |
| Preprocessing.StripEmailsNoAt | src/spam_detector/preprocessing.py:16 | the e-mail substitution changes nothing in a text without '@' |
| Preprocessing.StripNumbersNoDigits | src/spam_detector/preprocessing.py:17 | the number substitution changes nothing in a text without digits |
| Preprocessing.FilterCharsClean | src/spam_detector/preprocessing.py:18 | the character filter changes nothing in a text over the output alphabet |
| Preprocessing.CollapseSingleSpaces | src/spam_detector/preprocessing.py:19 | collapsing changes nothing in a text with single plain spaces only |
| Preprocessing.CleanedCharacters | src/spam_detector/preprocessing.py:14-19 | a cleaned string has no capitals, digits, ':', '.', '@' or whitespace other than ' ' |
| Preprocessing.CleanedIsFixpoint | src/spam_detector/preprocessing.py:12-20 | every cleaned string is a fixed point of `clean_text` |
| Preprocessing.CleanTextIdempotent | src/spam_detector/preprocessing.py:12-20 | `clean_text(clean_text(x)) == clean_text(x)` for every x |
| Preprocessing.StripUrlsSplit | src/spam_detector/preprocessing.py:15 | after a whitespace boundary the URL substitution works on the two parts independently |
| Preprocessing.UrlTokenRemoved | src/spam_detector/preprocessing.py:15 | a URL whose `http://`, `https://` or `www.` prefix starts anywhere in a run (the first one in that run) is replaced, from its prefix to the end of the run, by one space; the part of the run before the prefix is kept |
| Preprocessing.StripEmailsSplit | src/spam_detector/preprocessing.py:16 | after a whitespace boundary the e-mail substitution works on the two parts independently |
| Preprocessing.EmailTokenRemoved | src/spam_detector/preprocessing.py:16 | a whitespace-delimited token with an '@' that has non-space characters on both sides becomes a single space |
| Preprocessing.StripNumbersSplit | src/spam_detector/preprocessing.py:17 | after a non-word character the number substitution works on the two parts independently |
| Preprocessing.StripNumbersFlag | src/spam_detector/preprocessing.py:17 | before a non-digit, whether the previous character was a word character does not matter |
| Preprocessing.NumberRemoved | src/spam_detector/preprocessing.py:17 | a run of three or more digits between non-word boundaries becomes a single space |
| Preprocessing.NumberTokenAtStart | src/spam_detector/preprocessing.py:17 | at the start, a run of three or more digits followed by a non-word character becomes a single space |
| Preprocessing.DigitsBeforeNonDigit | src/spam_detector/preprocessing.py:17 | the digit run of a digit string followed by a non-word character is exactly that string |
| Preprocessing.StripUrlsShape | src/spam_detector/preprocessing.py:15 | the URL substitution never lengthens the text and adds no character except spaces |
| Preprocessing.StripEmailsShape | src/spam_detector/preprocessing.py:16 | the e-mail substitution never lengthens the text and adds no character except spaces |
| Preprocessing.StripNumbersShape | src/spam_detector/preprocessing.py:17 | the number substitution never lengthens the text and adds no character except spaces |
| Preprocessing.StripUrlsCopyAll | src/spam_detector/preprocessing.py:15 | characters where no URL starts are copied unchanged to the output |
| Preprocessing.UrlAtSpaceImpliesUrlAtUrl | src/spam_detector/preprocessing.py:15 | a URL match ends at the first whitespace, so what follows it does not matter |
| Preprocessing.UrlRemovedFromCleanText | src/spam_detector/preprocessing.py:12-20 | for lower-case input, a URL in a run of characters contributes nothing to `clean_text`: it cleans the same as a space in its place |
| Preprocessing.TextCleaner.Transform | src/spam_detector/preprocessing.py:32-33 | one output per input, in order, each the cleaner applied to its input |
| Preprocessing.TextCleaner.Fit | src/spam_detector/preprocessing.py:29-30 | fitting returns the cleaner unchanged |
| Preprocessing.CleanCorpus | src/spam_detector/preprocessing.py:36-38 | one cleaned text per input, in order |
| Preprocessing.MapTexts | src/spam_detector/preprocessing.py:33 | the comprehension keeps length and order and applies the function element-wise |
| Preprocessing.FittedCleanerIsCleanCorpus | src/spam_detector/preprocessing.py:26-38 | `fit` learns nothing: the fitted default cleaner's transform is `clean_corpus` |
| Table.CellText | src/spam_detector/data.py:43-44 | `astype(str)` keeps text and turns a missing cell into "nan" |
| Table.CategoryFromFlag | src/spam_detector/data.py:33 | "spam" exactly when the flag equals 1 (or True), otherwise "ham" |
| Table.DetectLayout | src/spam_detector/data.py:28-41 | ('text','spam') is tried first, then ('Message','Category'); neither yields no layout |
| Dataset.NormalizeMessage | src/spam_detector/data.py:44 | a normalised message has no edge whitespace and is no longer than the cell text |
| Dataset.NormalizeCategory | src/spam_detector/data.py:43 | a normalised category has no edge whitespace and no capitals |
| Dataset.LowerKeepsEdges | src/spam_detector/data.py:43 | lower-casing a stripped string keeps it stripped and leaves no capitals |
| Dataset.LoadRow | src/spam_detector/data.py:28-44 | in the flag layout the category is "spam" iff the flag is 1, otherwise "ham"; in the named layout both columns are normalised |
| Dataset.FlagCategoryNormal | src/spam_detector/data.py:33-43 | the class names made from a flag survive normalisation unchanged |
| Dataset.ClassNamesNormal | src/spam_detector/data.py:43 | "spam" and "ham" are already normal |
| Dataset.NormalName | src/spam_detector/data.py:43 | a category with no edge whitespace and no capitals is already normal |
| Dataset.LoadDataset | src/spam_detector/data.py:14-45 | a missing file is refused; an unknown layout is refused with its columns; otherwise one normalised row per input row, none dropped or reordered |
| Dataset.EncodeLabels | src/spam_detector/data.py:48-50 | one label per row, 1 exactly when the category is "spam" |
| Dataset.FeaturesAndLabels | src/spam_detector/data.py:53-57 | messages and labels of equal length, aligned row by row |
| Dataset.LabelOfRow | src/spam_detector/data.py:28-57 | a loaded row's label is 1 iff its flag is 1 (flag layout) or its normalised category is "spam" (named layout) |
| Dataset.PaddedCategory | src/spam_detector/data.py:43 | a category padded with spaces normalises to its lower-case form |
| Dataset.PaddedCategoryIsSpam | src/spam_detector/data.py:43 | " Spam " normalises to "spam" |
| Dataset.CapitalisedSpam | src/spam_detector/data.py:43 | "Spam" lower-cases to "spam" |
| CleanTransform.NormalizeColumns | src/data/clean_transform.py:57-69 | one working row per input row, each laid out by the detected layout |
| CleanTransform.LayoutRow | src/data/clean_transform.py:58-64 | the flag layout yields a "spam"/"ham" category text; the named layout keeps both cells as they are |
| CleanTransform.DropDuplicatesAfter | src/data/clean_transform.py:71-72 | keeps exactly the first occurrence of each raw message not seen before: every kept row is from the input, kept messages are pairwise distinct, and every such first occurrence is kept |
| CleanTransform.DropDuplicates | src/data/clean_transform.py:72 | `drop_duplicates(keep="first")`: the kept rows are from the input, their messages are pairwise distinct, and every first occurrence is kept |
| CleanTransform.DropMissing | src/data/clean_transform.py:75-77 | keeps exactly the rows with both cells present: every kept row is from the input and passes, and every passing row is kept |
| CleanTransform.StripRows | src/data/clean_transform.py:81-83 | one stripped row per input row, in order |
| CleanTransform.DropEmpty | src/data/clean_transform.py:85-87 | keeps exactly the rows with a non-empty message: every kept row is from the input, and every non-empty one is kept |
| CleanTransform.DropInvalid | src/data/clean_transform.py:90-96 | keeps exactly the rows whose category is "spam" or "ham": every kept row is from the input, and every valid one is kept |
| CleanTransform.DropInvalidWhenAllValid | src/data/clean_transform.py:94-96 | with no invalid category the table is left as it was |
| CleanTransform.AddMetadataRow | src/data/clean_transform.py:98-100 | the length column is the message length and the word count is its number of whitespace-separated words |
| CleanTransform.AddMetadata | src/data/clean_transform.py:98-100 | one row with metadata per input row, in order |
| CleanTransform.CleanAndTransform | src/data/clean_transform.py:24-112 | refuses a table with neither layout with an error carrying its columns; otherwise the result equals the one-pass survivor specification and every row is well formed |
| CleanTransform.DropMissingCons | src/data/clean_transform.py:77 | dropping missing cells works row by row |
| CleanTransform.DropEmptyCons | src/data/clean_transform.py:86-87 | dropping empty messages works row by row |
| CleanTransform.DropInvalidCons | src/data/clean_transform.py:92-96 | dropping invalid categories works row by row |
| CleanTransform.StripRowsCons | src/data/clean_transform.py:82-83 | stripping works row by row |
| CleanTransform.AddMetadataCons | src/data/clean_transform.py:99-100 | adding metadata works row by row |
| CleanTransform.AfterStripCons | src/data/clean_transform.py:85-100 | the steps after stripping keep or drop each row on its own, keeping order |
| CleanTransform.AfterDedupCons | src/data/clean_transform.py:75-100 | the steps after de-duplication keep or drop each row on its own, keeping order |
| CleanTransform.StepsMatchSurvivors | src/data/clean_transform.py:71-100 | the step-by-step pipeline equals one pass that keeps first occurrences that survive every filter, so the output is an ordered subsequence of the input |
| CleanTransform.SurvivorsWellFormed | src/data/clean_transform.py:81-100 | every surviving row has a stripped non-empty message, a "spam"/"ham" category, and consistent length and word count |
| CleanTransform.KeptWellFormed | src/data/clean_transform.py:81-100 | a row that survives every filter is well formed |
| CleanTransform.MetadataWellFormed | src/data/clean_transform.py:82-100 | a stripped non-empty message with a valid category gives a well-formed row |
| CleanTransform.DistinctRawMessagesBothKept | src/data/clean_transform.py:72-82 | two rows with different raw messages are both kept whenever each survives on its own |
| CleanTransform.SurvivorsCons | src/data/clean_transform.py:72 | the first occurrence of a raw message decides; later copies are dropped |
| CleanTransform.PaddedMessagesStripAlike | src/data/clean_transform.py:72-82 | " hi" and "hi" are different raw messages that strip to the same message, so both can survive |
| CleanTransform.MissingFlagIsHam | src/data/clean_transform.py:61 | a row without a flag is labelled "ham" in the flag layout |
| Modeling.TextPipeline | src/spam_detector/modeling.py:19-35 | three steps named clean, tfidf, clf, in that order, with the given classifier last |
| Modeling.LinearSvcPipeline | src/spam_detector/modeling.py:27-35 | a text pipeline whose final classifier is the linear SVC |
| Modeling.MultinomialNbPipeline | src/spam_detector/modeling.py:38-46 | a text pipeline whose final classifier is multinomial naive Bayes |
| Modeling.LogRegPipeline | src/spam_detector/modeling.py:49-63 | a text pipeline whose final classifier is logistic regression |
| Modeling.GetModelPipeline | src/spam_detector/modeling.py:66-76 | accepted iff the lower-cased name is listed; a refusal names the request; every pipeline cleans with `clean_text` and uses n-grams (1,2) with min_df 1 |
| Modeling.FinalClassifier | src/spam_detector/modeling.py:27-63 | the last step's classifier, present exactly when the last step is one |
| Modeling.ClassifierPerName | src/spam_detector/modeling.py:27-63 | linear_svc has C=1.0 and seed 42; multinomial_nb has alpha=0.5; log_reg has C=1.0, 200 iterations, liblinear and seed 42 |
| Modeling.CaseInsensitive | src/spam_detector/modeling.py:68 | a name and its lower-case form give the same answer |
| Modeling.AvailableModelsAccepted | src/spam_detector/modeling.py:16-70 | every listed name is accepted as is |
| Modeling.UpperCaseNameAccepted | src/spam_detector/modeling.py:68 | "LINEAR_SVC" selects the linear SVC pipeline |
| Modeling.UnknownNameRefused | src/spam_detector/modeling.py:69-70 | "svm" is refused and named in the error |
| Modeling.HasDecisionFunction | src/spam_detector/modeling.py:27-63 | a pipeline has a decision function iff its final classifier is the SVC or logistic regression |
| Modeling.HasPredictProba | src/spam_detector/modeling.py:38-63 | a pipeline has class probabilities iff its final classifier is naive Bayes or logistic regression |
| Evaluation.ScoreSourceOf | src/spam_detector/evaluation.py:16-23 | decision values first, class-1 probabilities second, otherwise none |
| Evaluation.RocAucScore | src/spam_detector/evaluation.py:19 | `roc_auc_score` gives a value iff both classes occur in the true labels, and otherwise raises "Only one class present in y_true" |
| Evaluation.ComputeAuc | src/spam_detector/evaluation.py:16-23 | no score source gives no AUC; with one, the AUC comes from the preferred source and the call raises exactly when the true labels hold one class |
| Evaluation.FactoryModelsHaveAuc | src/spam_detector/evaluation.py:16-23 | every factory pipeline has a score source, so its AUC exists iff both classes occur; only naive Bayes takes it from probabilities |
| Evaluation.CountPairs | src/spam_detector/evaluation.py:45 | a confusion count never exceeds the number of test examples |
| Evaluation.CountCorrect | src/spam_detector/evaluation.py:41 | the number of correct predictions never exceeds the number of examples |
| Evaluation.CountLabel | src/spam_detector/evaluation.py:42-44 | a label count never exceeds the length |
| Evaluation.TallyPartitions | src/spam_detector/evaluation.py:41-45 | TN+FP+FN+TP is the number of examples; TN+TP are the correct ones; FN+TP the actual positives; FP+TP the predicted positives |
| Evaluation.Ratio | src/spam_detector/evaluation.py:41-44 | 0 when the denominator is 0 (`zero_division=0`), otherwise the exact quotient, within [0,1] for a part of a whole |
| Evaluation.F1IsHarmonicMean | src/spam_detector/evaluation.py:42-44 | with a true positive, F1 is the harmonic mean of precision and recall |
| Evaluation.F1ZeroIffNoTruePositive | src/spam_detector/evaluation.py:42-44 | F1 is 0 exactly when there is no true positive |
| Evaluation.HarmonicMean | src/spam_detector/evaluation.py:42-44 | 2·tp/(a+b) equals the harmonic mean of tp/a and tp/b |
| Evaluation.PresentLabels | src/spam_detector/evaluation.py:45 | the sorted labels occurring in the true labels or the predictions |
| Evaluation.ConfusionMatrix | src/spam_detector/evaluation.py:45 | a square matrix over the present labels whose entry (i,j) counts true label i predicted as j |
| Evaluation.AbsentLabelCountsZero | src/spam_detector/evaluation.py:45 | a label that never occurs has zero counts |
| Evaluation.ConfusionMatrixShape | src/spam_detector/evaluation.py:45 | 2×2 `[[TN,FP],[FN,TP]]` iff both labels occur, otherwise `[[n]]` |
| Evaluation.MakeRecord | src/spam_detector/evaluation.py:38-55 | fails with the AUC error iff the AUC computation does; otherwise model name, accuracy, precision, recall and F1 with positive label 1, AUC and confusion matrix of the test predictions, every ratio within [0,1] |
| Evaluation.EncodeRecord | src/spam_detector/evaluation.py:47-55 | the record has exactly the keys model, accuracy, precision, recall, f1, roc_auc and confusion_matrix |
| Evaluation.DecodeNumber | src/spam_detector/evaluation.py:47-55 | a number field decodes iff present and numeric |
| Evaluation.DecodeCount | src/spam_detector/evaluation.py:45 | a decoded count is the number it was read from |
| Evaluation.DecodeRow | src/spam_detector/evaluation.py:45 | a decoded matrix row has one count per item |
| Evaluation.DecodeMatrix | src/spam_detector/evaluation.py:45 | a decoded matrix has one decoded row per list |
| Evaluation.DecodeRecord | src/spam_detector/evaluation.py:47-55 | a decoded record's model and f1 come from those keys |
| Evaluation.RowRoundTrip | src/spam_detector/evaluation.py:45 | decoding an encoded matrix row gives it back |
| Evaluation.MatrixRoundTrip | src/spam_detector/evaluation.py:45 | decoding an encoded confusion matrix gives it back |
| Evaluation.RecordRoundTrip | src/spam_detector/evaluation.py:47-55 | decoding an encoded evaluation record gives it back |
| Evaluation.Estimator.constructor | src/spam_detector/modeling.py:66-76 | a fresh pipeline is unfitted |
| Evaluation.Estimator.Fit | src/spam_detector/evaluation.py:36 | fitting stores what the learner learns from the training split |
| Evaluation.Estimator.EvaluateModel | src/spam_detector/evaluation.py:26-55 | fits only an unfitted model, then returns the record of the fitted model on the test split, or the AUC error when the test labels hold one class |
| CompareModels.DefaultArtifactsAreLinearSvc | training/compare_models.py:77-78 | the first model's artifact paths under `models` are the loader's default paths |
| CompareModels.ArtifactPathsDistinct | training/compare_models.py:77-86 | no two written files share a path: different models, model versus metrics, and the comparison file |
| CompareModels.InsertByF1 | training/compare_models.py:84 | inserting adds exactly one record |
| CompareModels.RankByF1 | training/compare_models.py:84 | ranking keeps the number of records |
| CompareModels.WithF1 | training/compare_models.py:84 | the records with one F1 value are a sub-list |
| CompareModels.InsertPermutes | training/compare_models.py:84 | insertion adds the record and loses none |
| CompareModels.InsertKeepsRanking | training/compare_models.py:84 | inserting into a descending list keeps it descending |
| CompareModels.RankPermutes | training/compare_models.py:84 | the ranking is a permutation of the records |
| CompareModels.RankIsRanked | training/compare_models.py:84 | the ranking is ordered by F1, highest first |
| CompareModels.WithF1Append | training/compare_models.py:84 | selecting by F1 distributes over concatenation |
| CompareModels.RankedTail | training/compare_models.py:84 | the tail of a ranking is a ranking |
| CompareModels.NoneEqualBelowHead | training/compare_models.py:84 | a ranking holds no F1 above its head |
| CompareModels.InsertIsStable | training/compare_models.py:84 | an inserted record goes after every earlier record with the same F1 |
| CompareModels.RankIsStable | training/compare_models.py:84 | records with equal F1 keep their training order |
| CompareModels.BestHasMaxF1 | training/compare_models.py:89 | the reported best is one of the records and no record has a higher F1 |
| CompareModels.FirstWithF1 | training/compare_models.py:84 | the first record with a given F1 leads the records with that F1 |
| CompareModels.BestIsFirstMaximum | training/compare_models.py:84-89 | among equal-best records, the earliest trained is reported |
| CompareModels.RecordsInOrder | training/compare_models.py:71-75 | one record per available model, in that order |
| CompareModels.EvaluationFailsOnOneClass | training/compare_models.py:71-75 | each listed model's evaluation fails, with the AUC error, exactly when the test labels hold one class |
| CompareModels.ServedModel | training/compare_models.py:79 | the saved pipeline predicts its learned labels and has a decision function iff its classifier does |
| CompareModels.ArtifactsInOrder | training/compare_models.py:71-81 | one pair of artifacts per available model, in that order |
| CompareModels.TrainOne | training/compare_models.py:72-81 | one iteration fits and evaluates the model; with both classes it produces that model's record and artifacts, with one class the AUC error and no artifacts |
| CompareModels.WritesOneMore | training/compare_models.py:79-81 | writing one more model adds its two files over the earlier ones |
| CompareModels.TrainAll | training/compare_models.py:71-81 | with both classes the loop's records and files are those of every model in order; with one class it stops with the AUC error before writing anything |
| CompareModels.TrainAndCompare | training/compare_models.py:60-91 | fails iff the test labels hold one class, leaving storage unchanged; otherwise the ranking is the stable F1 sort of the records, the best is its head, and the files are all artifacts plus the comparison |
| CompareModels.FirstArtifactKept | training/compare_models.py:79-81 | later models do not overwrite the first model's files |
| CompareModels.DefaultLoadReadsFirst | training/compare_models.py:77-87 | after the script, the loader's default paths read the linear SVC model and metrics |
| CompareModels.ServingFindsLinearSvc | src/api/model_loader.py:22-23 | after a run on test labels with both classes, the default model the API loads is the trained linear SVC, and its metrics name "linear_svc" |
| ModelLoader.LoadModel | src/api/model_loader.py:30-58 | a missing path is refused before reading; a file that is not a model fails to deserialise; otherwise the stored model |
| ModelLoader.LoadMetrics | src/api/model_loader.py:61-83 | never fails: a missing or unreadable file gives `{}`, and a stored object is returned as it is |
| ModelLoader.Get | src/api/model_loader.py:157-170 | `dict.get` gives the entry or the default |
| ModelLoader.LoadedInfo | src/api/model_loader.py:157-170 | reports loaded, the default path, `model` or "unknown", and each of accuracy, precision, recall, f1 and roc_auc from the metrics or null |
| ModelLoader.ArtifactCache.constructor | src/api/model_loader.py:26-27 | both slots start empty |
| ModelLoader.ArtifactCache.GetModel | src/api/model_loader.py:86-110 | a filled slot is returned without reading storage unless forced; otherwise it loads, and stores only on success |
| ModelLoader.ArtifactCache.GetMetrics | src/api/model_loader.py:113-134 | a filled slot is returned without reading unless forced; otherwise whatever was loaded, `{}` included, is cached |
| ModelLoader.ArtifactCache.GetModelInfo | src/api/model_loader.py:146-170 | unloaded: a fixed report and the metrics slot untouched; loaded: the report built from the cached metrics |
| ModelLoader.ArtifactCache.IsModelLoaded | src/api/model_loader.py:137-143 | true exactly when the model slot is filled |
| ModelLoader.MissingMetricsCachedEmpty | src/api/model_loader.py:126-134 | once a missing metrics file is cached as `{}`, a file written later is not seen |
| ModelLoader.FailedReloadKeepsModel | src/api/model_loader.py:104-106 | a forced reload that fails keeps serving the earlier model |
| Schemas.ParsePredictRequest | src/api/schemas.py:8-16 | valid iff the body has a string `message` of length at least 1 |
| Schemas.StringItems | src/api/schemas.py:29 | a list decodes iff every item is a string, keeping order |
| Schemas.ParseBatchRequest | src/api/schemas.py:26-34 | valid iff `messages` is a list of 1 to 100 strings (empty strings allowed), kept in order |
| Schemas.PredictRequestRoundTrip | src/api/schemas.py:8-16 | a request body reads back as itself iff its message is non-empty |
| Schemas.BatchRequestRoundTrip | src/api/schemas.py:26-34 | a valid batch request reads back as itself |
| Schemas.LabelName | src/api/schemas.py:51-52 | "spam" exactly for spam, "ham" otherwise |
| Schemas.ToResult | src/api/schemas.py:48-65 | a single response carries the same four fields as a batch result |
| Schemas.ToResponse | src/api/schemas.py:48-65 | a batch result carries the same four fields as a single response |
| Schemas.ResultResponseBijection | src/api/schemas.py:48-65 | the two shapes convert into each other without loss |
| Schemas.CountSpam | src/api/schemas.py:81-83 | the spam count never exceeds the number of results |
| Schemas.CountSpamAppend | src/api/schemas.py:81-83 | appending a result adds one to the spam count exactly when it is spam |
| Schemas.BatchExampleConsistent | src/api/schemas.py:86-107 | the documented example has total = spam_count + ham_count = number of predictions |
| Schemas.DecodeOptionalString | src/api/schemas.py:113-116 | an absent optional field decodes as absent |
| Schemas.DecodeRequiredString | src/api/schemas.py:113-116 | a required string decodes iff present as a string |
| Schemas.DecodeHealth | src/api/schemas.py:110-116 | a body decodes iff status and version are strings, model_loaded is a bool, and model_name is absent, null or a string; the decoded fields are those values, with an absent or null model_name read as none |
| Schemas.HealthRoundTrip | src/api/schemas.py:110-116 | a health response reads back as itself |
| Schemas.DecodeError | src/api/schemas.py:155-159 | an error body decodes iff `error` is a string and `detail`, if present, is a string or null |
| Schemas.ErrorRoundTrip | src/api/schemas.py:155-159 | an error response reads back as itself |
| Api.RootInfo | src/api/main.py:94-102 | the root answer names the version and the health path |
| Api.MakeResult | src/api/main.py:257-271 | a result echoes its message, is spam iff the label is 1, and its name agrees |
| Api.SingleConfidence | src/api/main.py:172-180 | absent without a decision function or when it raises, otherwise the sigmoid of the decision value |
| Api.BatchResults | src/api/main.py:253-271 | the batch results pair message, label and confidence position by position; a shorter confidence list than both others raises IndexError, and otherwise the results stop at the shorter of messages and labels |
| Api.BatchConfidences | src/api/main.py:239-250 | one per message, all absent or all present; all absent without a decision function or when the call raises; the sigmoid of each decision value when the call succeeds |
| Api.BuildBatchResults | src/api/main.py:253-271 | the loop builds the batch results and counts spam and ham so that they sum to the number of results |
| Api.PredictOutcome | src/api/main.py:164-200 | fails iff the model raises; otherwise echoes the message, spam iff label 1, with the single confidence |
| Api.BatchOutcome | src/api/main.py:234-289 | fails iff the model raises; otherwise one result per message in order, with consistent totals |
| Api.PredictAnswer | src/api/main.py:143-200 | 422 leaves every counter; each request counts once; no model means 500; success adds one prediction to spam or ham; the balance invariant is kept |
| Api.BatchAnswer | src/api/main.py:213-289 | 422 leaves every counter; each request counts once; no model means 500; success adds the batch's totals; failure leaves the prediction counters; the invariant is kept |
| Api.HealthAnswer | src/api/main.py:111-130 | always "healthy" with the version; model_loaded mirrors the cache; a non-string model name ends in 500 |
| Api.SpamService.constructor | src/api/main.py:37-43 | every counter starts at zero with the given start time |
| Api.SpamService.Startup | src/api/main.py:57-61 | startup loads the default model into an empty slot and keeps it empty on failure |
| Api.SpamService.HealthCheck | src/api/main.py:111-130 | counts the request and answers from the cache without loading the model |
| Api.SpamService.Predict | src/api/main.py:143-200 | the new counters and the answer are those of `PredictAnswer` |
| Api.SpamService.PredictBatch | src/api/main.py:213-289 | the new counters and the answer are those of `BatchAnswer` |
| Api.SpamService.GetApiMetrics | src/api/main.py:298-323 | counts its own request first, then reports the cached metrics and the counters read afterwards |

## Left out

- Unicode: character classes, `str.lower` and whitespace are modelled on ASCII (`\s` includes `\x1c`–`\x1f`); non-ASCII case mapping and whitespace are not modelled.
- Confidence: the sigmoid `1/(1+exp(-d))` is kept symbolic as `Sigmoid(d)`; floating-point overflow is not modelled.
- scikit-learn: TF-IDF weighting, fitting, prediction and the value of `roc_auc_score` are opaque parameters (a learner and an AUC function; its refusal of one-class labels is modelled); `joblib` stores the fitted model value itself.
- Evaluation.MakeRecord: requires a non-empty test split; scikit-learn gives undefined (NaN) metrics or refuses an empty one, which the model does not follow.
- Evaluation.Estimator.Fit: the learner is total, so fitting never fails. In scikit-learn, LinearSVC and the liblinear LogisticRegression refuse a training split with one class (evaluation.py:36, reached from compare_models.py:73), and multinomial naive Bayes then has no class-1 probability column for `[:, 1]` (evaluation.py:21); neither failure is modelled. With a one-class training split and a two-class test split, the model therefore writes records and artifacts where the source raises before anything is written; on a one-class dataset the model's error is the AUC text rather than the fit's.
- Inputs of inconsistent lengths to the metric functions are not modelled (scikit-learn raises).
- Floating point: metrics are exact rationals, so float rounding (and `round(f1, 4)` in the printed summary) is not modelled.
- `train_test_split_data`, `TEST_SIZE` and the stratified random split are not modelled; the comparison script takes the split as given.
- I/O: CSV parsing, JSON encoding, directory creation, argparse, logging and prints are not modelled; files are an abstract map from paths to values.
- Concurrency: handlers run one at a time; there are no locks in the source.
- Time: uptime is the exact difference between a clock reading passed in and the start time, without `round(..., 2)`.
- Modeling: pipeline step objects are values, so "fresh objects on every call" is trivially true and not stated.
- Tables: only text, integer, boolean and missing cells; extra columns are ignored; float cells and `1.0 == 1` are not modelled.
- The FastAPI machinery (routing, CORS, the generic exception handler's logging, pydantic error texts) is not modelled; a validation failure is a value.
- ModelLoader.LoadMetrics: a metrics file holding valid JSON that is not an object is read as `{}`; the source returns such a value as it is, and the later `.get` on it would raise.
- The startup and shutdown prints of `lifespan` are not modelled.
- Preprocessing.StripUrls, Preprocessing.StripEmails, Preprocessing.StripNumbers: the recursive scans carry no ensures of their own; their shape and behaviour are stated by the lemmas listed beside them (StripUrlsShape, UrlTokenRemoved, StripUrlsSplit and the like).
- CleanTransform.CleanAndTransform: the error carries the column set, so the order in which the message lists the columns is not modelled.
- Text.Strip: its contract states only the edges and the length; that the result is the input's slice between whitespace is stated separately by Text.StripSlice.
- training/train.py, app.py, src/data/download_data.py, src/data/load_final.py and src/data/data_pipeline.py are not part of this model (orchestration, UI and file and network plumbing).
